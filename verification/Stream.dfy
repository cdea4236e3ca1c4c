/** Commands cut out of a TCP byte stream that arrives in arbitrary pieces. */
module Stream {
  import opened Protocol
  import opened ByteStrings
  import opened Headers
  import opened Messages

  datatype Reading =
    | NeedData(missing: nat)
    | Got(command: Message, rest: Bytes)
    | Raised(error: WireError)

  /** Once nothing is missing there is a header and its whole payload. */
  lemma NothingMissing(data: Bytes)
    requires BytesNeededForCommand(data).missing == 0
    ensures var header := BytesNeededForCommand(data).header;
            header.Some? && |data| >= header.value.Size() + header.value.payloadSize
  {}

  function ReadFromBytestream(data: Bytes, role: Role): (r: Reading)
    ensures r.Got? ==> |r.rest| + HEADER_SIZE <= |data|
  {
    var needs := BytesNeededForCommand(data);
    if needs.missing > 0 then
      NeedData(needs.missing)
    else
      NothingMissing(data);
      var header := needs.header.value;
      var total := header.Size() + header.payloadSize;
      match ClassOf(role, header.command)
      case None => Raised(BadCommandId)
      case Some(kind) =>
        match FromWire(kind, header, data[header.Size()..total])
        case Err(error) => Raised(error)
        case Ok(command) => Got(command, data[total..])
  }

  /** Why a complete command of this header cannot be read. The bytes of the payload do not
      matter. */
  function Fault(role: Role, header: Header): Option<WireError> {
    match ClassOf(role, header.command)
    case None => Some(BadCommandId)
    case Some(kind) =>
      if kind.EventAddRequest? then
        if header.payloadSize < 16 then Some(BufferTooSmall) else None
      else if HasValue(kind) && !(kind.EventAddResponse? && header.payloadSize == 0) then
        match LayoutOf(header.dataType)
        case None => Some(UnknownDataType)
        case Some(layout) => if header.payloadSize < layout.metadata then Some(BufferTooSmall) else None
      else
        None
  }

  /** Reading raises exactly when the command is complete and its header is at fault. Of
      the errors only that of an unknown command id is a protocol error. */
  lemma ParserRaises(data: Bytes, role: Role)
    ensures var needs, r := BytesNeededForCommand(data), ReadFromBytestream(data, role);
            if needs.missing > 0 then r == NeedData(needs.missing)
            else
              && needs.header.Some?
              && match Fault(role, needs.header.value)
                 case Some(error) => r == Raised(error)
                 case None => r.Got?
  {
    var needs := BytesNeededForCommand(data);
    if needs.missing == 0 {
      NothingMissing(data);
      var header := needs.header.value;
      hide BytesNeededForCommand, ClassOf, LayoutOf;
      var payload := data[header.Size()..header.Size() + header.payloadSize];
      assert |payload| == header.payloadSize;
    }
  }

  /** Everything that can be read from `data`, up to an incomplete command or an error. */
  datatype Drained = Drained(commands: seq<Message>, rest: Bytes, missing: nat, error: Option<WireError>)

  function Drain(data: Bytes, role: Role): Drained
    decreases |data|
  {
    match ReadFromBytestream(data, role)
    case NeedData(missing) => Drained([], data, missing, None)
    case Raised(error) => Drained([], data, 0, Some(error))
    case Got(command, rest) => After([command], Drain(rest, role))
  }

  function After(commands: seq<Message>, d: Drained): Drained {
    d.(commands := commands + d.commands)
  }

  lemma AfterBoth(a: seq<Message>, b: seq<Message>, d: Drained)
    ensures After(a, After(b, d)) == After(a + b, d)
  {
    assert a + (b + d.commands) == a + b + d.commands;
  }

  // ----- more bytes do not change what was read from the first ones

  lemma SamePrefix(data: Bytes, more: Bytes, from: nat, to: nat)
    requires from <= to <= |data|
    ensures (data + more)[from..to] == data[from..to]
    ensures (data + more)[to..] == data[to..] + more
  {}

  lemma SameNormal(data: Bytes, more: Bytes)
    requires |data| >= HEADER_SIZE
    ensures ReadNormal(data + more) == ReadNormal(data)
  {
    SamePrefix(data, more, 0, 2); SamePrefix(data, more, 2, 4); SamePrefix(data, more, 4, 6);
    SamePrefix(data, more, 6, 8); SamePrefix(data, more, 8, 12); SamePrefix(data, more, 12, 16);
  }

  lemma SameExtended(data: Bytes, more: Bytes)
    requires |data| >= EXTENDED_HEADER_SIZE
    ensures ReadExtended(data + more) == ReadExtended(data)
  {
    SameNormal(data, more);
    SamePrefix(data, more, 16, 20); SamePrefix(data, more, 20, 24);
    SamePrefix(data, more, 0, 2); SamePrefix(data, more, 4, 6);
    SamePrefix(data, more, 8, 12); SamePrefix(data, more, 12, 16);
  }

  /** A header once seen stays, and a header still missing needs at least what was said. */
  lemma NeedsWithMore(data: Bytes, more: Bytes)
    ensures var before, after := BytesNeededForCommand(data), BytesNeededForCommand(data + more);
            && (before.header.Some? ==> after.header == before.header)
            && (before.header.Some? ==> after.missing == if more == [] || |more| <= before.missing
                                                         then before.missing - |more| else 0)
            && (|more| < before.missing ==> after.missing > 0)
  {
    if |data| >= HEADER_SIZE {
      SameNormal(data, more);
      if |data| >= EXTENDED_HEADER_SIZE {
        SameExtended(data, more);
      }
    }
    hide ReadNormal, ReadExtended;
  }

  /** The number of bytes asked for is never more than what is missing: with fewer, no
      command can be read. Once the header is known it is exact. */
  lemma NeverAsksTooMuch(data: Bytes, more: Bytes, role: Role)
    requires ReadFromBytestream(data, role).NeedData?
    ensures |more| < ReadFromBytestream(data, role).missing ==> ReadFromBytestream(data + more, role).NeedData?
    ensures BytesNeededForCommand(data).header.Some? ==>
              (|more| < ReadFromBytestream(data, role).missing <==> ReadFromBytestream(data + more, role).NeedData?)
  {
    NeedsWithMore(data, more);
    hide BytesNeededForCommand, ClassOf, FromWire;
  }

  lemma ReadWithMore(data: Bytes, more: Bytes, role: Role)
    ensures match ReadFromBytestream(data, role)
            case NeedData(_) => true
            case Raised(error) => ReadFromBytestream(data + more, role) == Raised(error)
            case Got(command, rest) => ReadFromBytestream(data + more, role) == Got(command, rest + more)
  {
    NeedsWithMore(data, more);
    if BytesNeededForCommand(data).missing == 0 {
      NothingMissing(data);
      var header := BytesNeededForCommand(data).header.value;
      SamePrefix(data, more, header.Size(), header.Size() + header.payloadSize);
    }
    hide BytesNeededForCommand, ClassOf, FromWire;
  }

  /** Reading on: what was left over comes before what arrives later. */
  lemma {:induction false} DrainWithMore(data: Bytes, more: Bytes, role: Role)
    ensures var first, whole := Drain(data, role), Drain(data + more, role);
            if first.error.Some? then whole == first.(rest := first.rest + more)
            else whole == After(first.commands, Drain(first.rest + more, role))
    decreases |data|
  {
    ReadWithMore(data, more, role);
    hide ReadFromBytestream;
    match ReadFromBytestream(data, role) {
      case NeedData(_) =>
        assert After([], Drain(data + more, role)) == Drain(data + more, role);
      case Raised(_) =>
      case Got(command, rest) =>
        DrainWithMore(rest, more, role);
        AfterBoth([command], Drain(rest, role).commands, Drain(Drain(rest, role).rest + more, role));
    }
  }

  // ----- any way of cutting the stream

  /** Successive calls of Recv, one for each chunk, until one of them raises. */
  function Feed(kept: Bytes, chunks: seq<Bytes>, role: Role): Drained
    decreases |chunks|
  {
    if chunks == [] then
      Drain(kept, role)
    else
      var d := Drain(kept + chunks[0], role);
      if d.error.Some? then d else After(d.commands, Feed(d.rest, chunks[1..], role))
  }

  function Concat(chunks: seq<Bytes>): Bytes
    decreases |chunks|
  {
    if chunks == [] then [] else chunks[0] + Concat(chunks[1..])
  }

  /** How TCP cuts the stream does not matter: the commands, the error if there is one,
      and (without an error) the left-over bytes and the number of bytes asked for are
      those of a single call. */
  lemma {:induction false} ChunksDoNotMatter(kept: Bytes, chunks: seq<Bytes>, role: Role)
    ensures var pieces, whole := Feed(kept, chunks, role), Drain(kept + Concat(chunks), role);
            && pieces.commands == whole.commands && pieces.error == whole.error
            && pieces.missing == whole.missing
            && (pieces.error.None? ==> pieces.rest == whole.rest)
            && pieces.rest <= whole.rest
    decreases |chunks|
  {
    if chunks == [] {
      assert kept + Concat(chunks) == kept;
    } else {
      var more := Concat(chunks[1..]);
      var d := Drain(kept + chunks[0], role);
      assert kept + Concat(chunks) == kept + chunks[0] + more;
      DrainWithMore(kept + chunks[0], more, role);
      hide Drain;
      ChunksDoNotMatter(d.rest, chunks[1..], role);
    }
  }

  /** After a drain nothing more can be read until more arrives. */
  lemma {:induction false} DrainedIsDrained(data: Bytes, role: Role)
    ensures var d := Drain(data, role);
            && Drain(d.rest, role) == Drained([], d.rest, d.missing, d.error)
            && (d.error.None? ==> d.missing > 0)
    decreases |data|
  {
    match ReadFromBytestream(data, role) {
      case NeedData(_) =>
      case Raised(_) =>
      case Got(_, rest) => DrainedIsDrained(rest, role);
    }
    hide ReadFromBytestream;
  }
}
