/** Commands that share one UDP datagram, and the object that sends and receives them. */
module Datagrams {
  import opened Protocol
  import opened ByteStrings
  import opened Headers
  import opened Messages
  import opened Stream
  import opened RoundTrips
  import opened Batching

  datatype Piece = Piece(command: Message, rest: Bytes)

  function From(b: Bytes, start: nat): Bytes {
    if start > |b| then [] else b[start..]
  }

  /** One turn of the loop. The header is always taken to be a normal one, and the payload
      of a class that has none is not skipped. */
  function ReadPiece(data: Bytes, role: Role): (r: Result<Piece>)
    ensures r.Ok? ==> |r.value.rest| < |data|
  {
    if |data| < HEADER_SIZE then
      Err(BufferTooSmall)
    else
      var header := ReadNormal(data);
      var rest := data[HEADER_SIZE..];
      match ClassOf(role, header.command)
      case None => Err(BadCommandId)
      case Some(kind) =>
        var skipped := if HasPayload(kind) then header.payloadSize else 0;
        match FromWire(kind, header, Clip(rest, 0, skipped))
        case Err(error) => Err(error)
        case Ok(command) => Ok(Piece(command, From(rest, skipped)))
  }

  function Datagram(data: Bytes, role: Role): Result<seq<Message>>
    decreases |data|
  {
    if data == [] then
      Ok([])
    else
      match ReadPiece(data, role)
      case Err(error) => Err(error)
      case Ok(piece) =>
        match Datagram(piece.rest, role)
        case Err(error) => Err(error)
        case Ok(commands) => Ok([piece.command] + commands)
  }

  function Joint(commands: seq<Message>, r: Result<seq<Message>>): Result<seq<Message>> {
    match r
    case Err(error) => Err(error)
    case Ok(more) => Ok(commands + more)
  }

  lemma JointStep(data: Bytes, role: Role, commands: seq<Message>)
    requires data != [] && ReadPiece(data, role).Ok?
    ensures var piece := ReadPiece(data, role).value;
            Joint(commands, Datagram(data, role)) == Joint(commands + [piece.command], Datagram(piece.rest, role))
  {
    var piece := ReadPiece(data, role).value;
    var more := Datagram(piece.rest, role);
    assert more.Ok? ==> commands + ([piece.command] + more.value) == commands + [piece.command] + more.value;
    hide ReadPiece;
  }

  /** read_datagram */
  method ReadDatagram(data: Bytes, role: Role) returns (r: Result<seq<Message>>)
    ensures r == Datagram(data, role)
  {
    hide ReadPiece;
    var left := data;
    var commands: seq<Message> := [];
    ghost var whole := Datagram(data, role);
    assert whole.Ok? ==> [] + whole.value == whole.value;
    while left != []
      invariant Datagram(data, role) == Joint(commands, Datagram(left, role))
      decreases |left|
    {
      match ReadPiece(left, role) {
        case Err(error) =>
          return Err(error);
        case Ok(piece) =>
          JointStep(left, role, commands);
          commands := commands + [piece.command];
          left := piece.rest;
      }
    }
    assert commands + [] == commands;
    return Ok(commands);
  }

  // ----- the two parsers

  /** A command that the two parsers cut out in the same way. */
  predicate FitsDatagram(m: Message) {
    !m.header.extended && (!HasPayload(m.kind) ==> m.header.payloadSize == 0)
  }

  lemma FromWireKeepsHeader(kind: Kind, header: Header, payload: Bytes)
    ensures FromWire(kind, header, payload).Ok? ==>
              && FromWire(kind, header, payload).value.kind == kind
              && FromWire(kind, header, payload).value.header == header
  {
    hide LayoutOf;
  }

  /** What the stream parser reads, the datagram parser reads just so exactly when the
      header is a normal one and a class without payload announces none. */
  lemma PiecesAgree(data: Bytes, role: Role)
    requires ReadFromBytestream(data, role).Got?
    ensures var r := ReadFromBytestream(data, role);
            ReadPiece(data, role) == Ok(Piece(r.command, r.rest)) <==> FitsDatagram(r.command)
  {
    var needs := BytesNeededForCommand(data);
    NothingMissing(data);
    var header := needs.header.value;
    var kind := ClassOf(role, header.command).value;
    var total := header.Size() + header.payloadSize;
    FromWireKeepsHeader(kind, header, data[header.Size()..total]);
    var rest := data[HEADER_SIZE..];
    assert !header.extended ==> ReadNormal(data) == header;
    if !header.extended {
      assert Clip(rest, 0, header.payloadSize) == data[HEADER_SIZE..total];
      assert From(rest, header.payloadSize) == data[total..];
    }
    if header.payloadSize == 0 {
      assert Clip(rest, 0, 0) == data[HEADER_SIZE..HEADER_SIZE];
    }
    if !HasPayload(kind) {
      assert From(rest, 0) == rest;
    }
    FromWireKeepsHeader(ClassOf(role, ReadNormal(data).command).value, ReadNormal(data), Clip(rest, 0, 0));
    hide ClassOf, FromWire, ReadNormal, ReadExtended;
  }

  /** Both parsers agree on every datagram that the stream parser reads completely and
      whose commands all fit. */
  lemma {:induction false} ParsersAgree(data: Bytes, role: Role)
    requires var d := Drain(data, role);
             d.error.None? && d.rest == [] && forall m <- d.commands :: FitsDatagram(m)
    ensures Datagram(data, role) == Ok(Drain(data, role).commands)
    decreases |data|
  {
    match ReadFromBytestream(data, role) {
      case NeedData(_) =>
      case Raised(_) =>
      case Got(command, rest) =>
        var others := Drain(rest, role);
        assert Drain(data, role).commands == [command] + others.commands;
        PiecesAgree(data, role);
        assert FitsDatagram(Drain(data, role).commands[0]);
        assert forall m <- others.commands :: m in Drain(data, role).commands;
        ParsersAgree(rest, role);
    }
    hide ReadFromBytestream, ReadPiece, FitsDatagram;
  }

  // ----- the broadcaster

  predicate Confirms(ms: seq<Message>) {
    exists i | 0 <= i < |ms| :: ms[i].kind.RepeaterConfirmResponse?
  }

  lemma NothingEncoded()
    ensures !Confirms([]) && Encoded([]) == [] && Size([], Length) == 0
  {}

  lemma ConfirmsSnoc(ms: seq<Message>, i: nat)
    requires i < |ms|
    ensures Confirms(ms[..i + 1]) <==> Confirms(ms[..i]) || ms[i].kind.RepeaterConfirmResponse?
  {
    if ms[i].kind.RepeaterConfirmResponse? {
      assert ms[..i + 1][i].kind.RepeaterConfirmResponse?;
    }
    if Confirms(ms[..i]) {
      var k :| 0 <= k < i && ms[..i][k].kind.RepeaterConfirmResponse?;
      assert ms[..i + 1][k].kind.RepeaterConfirmResponse?;
    }
  }

  class Broadcaster {
    const ourRole: Role
    var registered: bool

    constructor (ourRole: Role)
      ensures this.ourRole == ourRole && !registered
    {
      this.ourRole := ourRole;
      registered := false;
    }

    method ProcessCommand(m: Message)
      modifies this
      ensures registered == (old(registered) || m.kind.RepeaterConfirmResponse?)
    {
      if m.kind.RepeaterConfirmResponse? {
        registered := true;
      }
    }

    method Send(ms: seq<Message>) returns (b: Bytes)
      modifies this
      ensures b == Encoded(ms)
      ensures registered == (old(registered) || Confirms(ms))
    {
      hide Confirms, Encoded, MessageBytes;
      NothingEncoded();
      assert ms[..0] == [];
      b := [];
      for i := 0 to |ms|
        invariant b == Encoded(ms[..i])
        invariant registered == (old(registered) || Confirms(ms[..i]))
      {
        ProcessCommand(ms[i]);
        var encoded := ToBytes(ms[i]);
        ConfirmsSnoc(ms, i);
        EncodedSnoc(ms[..i], ms[i]);
        assert ms[..i + 1] == ms[..i] + [ms[i]];
        b := b + encoded;
      }
      assert ms[..|ms|] == ms;
    }

    /** Every exception comes out as a RemoteProtocolError; the commands are not yet
        processed. */
    method Recv(data: Bytes) returns (commands: Option<seq<Message>>)
      ensures commands == match Datagram(data, ourRole.Other()) case Ok(ms) => Some(ms) case Err(_) => None
    {
      var r := ReadDatagram(data, ourRole.Other());
      match r {
        case Ok(ms) => commands := Some(ms);
        case Err(_) => commands := None;
      }
    }

    method ProcessCommands(ms: seq<Message>)
      modifies this
      ensures registered == (old(registered) || Confirms(ms))
    {
      for i := 0 to |ms|
        invariant registered == (old(registered) || Confirms(ms[..i]))
      {
        ProcessCommand(ms[i]);
        ConfirmsSnoc(ms, i);
      }
      assert ms[..|ms|] == ms;
    }

    method Disconnect()
      modifies this
      ensures !registered
    {
      registered := false;
    }
  }

  /** What one broadcaster sends, another receives as an equal list. */
  lemma BroadcastReadBack(ms: seq<Message>, role: Role)
    requires AllSendable(ms, role) && forall m <- ms :: !m.header.extended
    ensures Datagram(Encoded(ms), role).Ok?
    ensures var got := Datagram(Encoded(ms), role).value;
            |got| == |ms| && forall i | 0 <= i < |ms| :: Same(got[i], ms[i])
  {
    ListReadBack(ms, role);
    var got := Drain(Encoded(ms), role).commands;
    forall i | 0 <= i < |got|
      ensures FitsDatagram(got[i])
    {
      assert Same(got[i], ms[i]) && Sendable(ms[i], role);
      NoPayloadAnnounced(ms[i], role);
    }
    hide Drain, Same, FitsDatagram, Sendable;
    ParsersAgree(Encoded(ms), role);
  }

  lemma NoPayloadAnnounced(m: Message, role: Role)
    requires Sendable(m, role)
    ensures !HasPayload(Received(m.kind)) ==> m.header.payloadSize == 0
  {}

  // ----- the size of a search datagram

  const SEARCH_MAX_DATAGRAM_BYTES: nat := 1472

  /** len(message) */
  function Length(m: Message): nat {
    |SentBytes(m)|
  }

  lemma {:induction false} EncodedSize(ms: seq<Message>, role: Role)
    requires AllSendable(ms, role)
    ensures |Encoded(ms)| == Size(ms, Length)
    decreases |ms|
  {
    hide MessageBytes, Encoded, AllSendable, Sendable, Length, Size;
    if ms == [] {
      NothingEncoded();
    } else {
      PartsSendable(ms, role);
      EncodedSize(ms[..|ms| - 1], role);
      LastEncoded(ms, role);
    }
  }

  lemma LastEncoded(ms: seq<Message>, role: Role)
    requires ms != [] && Sendable(ms[|ms| - 1], role)
    ensures var front, last := ms[..|ms| - 1], ms[|ms| - 1];
            && |Encoded(ms)| == |Encoded(front)| + |MessageBytes(last)|
            && Size(ms, Length) == Size(front, Length) + |MessageBytes(last)|
  {
    hide MessageBytes, Encoded, Sendable, Length, Size;
    var front, last := ms[..|ms| - 1], ms[|ms| - 1];
    EncodedSnoc(front, last);
    SizeSnoc(front, last, Length);
    LengthIsEncoded(last, role);
    assert ms == front + [last];
  }

  lemma LengthIsEncoded(m: Message, role: Role)
    requires Sendable(m, role)
    ensures Length(m) == |MessageBytes(m)|
  {
    SentIsEncoded(m);
    hide MessageBytes, SentBytes;
  }

  lemma {:induction false} EncodedSnoc(ms: seq<Message>, m: Message)
    ensures Encoded(ms + [m]) == Encoded(ms) + MessageBytes(m)
    decreases |ms|
  {
    hide MessageBytes;
    if ms == [] {
      assert ms + [m] == [m];
    } else {
      assert (ms + [m])[1..] == ms[1..] + [m];
      EncodedSnoc(ms[1..], m);
    }
  }

  /** A batch made for what a version request leaves of a datagram fits into it, together
      with that version request, when every single search does. */
  lemma SearchDatagramFits(version: Message, batches: seq<seq<Message>>, i: nat)
    requires Sendable(version, Client) && i < |batches|
    requires Greedy(batches, Length, SEARCH_MAX_DATAGRAM_BYTES - Length(version))
    requires AllSendable(Flatten(batches), Client)
    requires forall m <- Flatten(batches) :: Length(m) <= SEARCH_MAX_DATAGRAM_BYTES - Length(version)
    requires batches[0] == [] ==>
               Flatten(batches) != []
               && Length(Flatten(batches)[0]) > SEARCH_MAX_DATAGRAM_BYTES - Length(version)
    ensures |Encoded([version] + batches[i])| <= 1472
  {
    hide Sendable, Length, Flatten, Greedy, Begin, Encoded, Size;
    LimitKept(batches, Length, SEARCH_MAX_DATAGRAM_BYTES - Length(version));
    BatchIsSlice(batches, i);
    assert AllSendable(batches[i], Client);
    EncodedSize(batches[i], Client);
    EncodedAfter(version, batches[i]);
  }

  lemma EncodedAfter(m: Message, ms: seq<Message>)
    requires Sendable(m, Client)
    ensures |Encoded([m] + ms)| == Length(m) + |Encoded(ms)|
  {
    SentIsEncoded(m);
    hide MessageBytes, SentBytes, Sendable;
    assert ([m] + ms)[1..] == ms;
  }
}
