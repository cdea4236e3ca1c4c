/** From the arguments of a command at one end to the tables of the circuit at the other:
    construction, encoding, parsing and processing put together. */
module EndToEnd {
  import opened Protocol
  import opened ByteStrings
  import opened Headers
  import opened Messages
  import opened Stream
  import opened RoundTrips
  import opened Delivery
  import opened Endpoint
  import opened RawFields
  import Circuit
  import Expected

  /** What the receiving circuit gets to see of a command that was built from `args`. */
  function Seen(kind: Kind, args: Arguments, rest: Bytes, parses: Bytes -> bool): Option<Command> {
    match ReadFromBytestream(MessageBytes(Build(kind, args)) + rest, SenderOf(kind))
    case Got(m, _) => Some(AsCommand(m, parses))
    case _ => None
  }

  lemma SeenFields(kind: Kind, args: Arguments, rest: Bytes, parses: Bytes -> bool)
    requires Proper(kind, args)
    ensures Seen(kind, args, rest, parses).Some?
    ensures var cmd := Seen(kind, args, rest, parses).value;
            && cmd.kind == Received(kind)
            && cmd.parameter1 == args.parameter1 % 0x1_0000_0000 && cmd.parameter2 == args.parameter2 % 0x1_0000_0000
            && (args.Value? ==> cmd.dataType == args.dataType && cmd.dataCount == args.dataCount)
            && (args.Bare? ==> cmd.dataType == args.dataType % 0x1_0000)
  {
    hide ReadFromBytestream, Build, Proper, MessageBytes, SenderOf, Received, Joined;
    ArgumentsReadBack(kind, args, rest);
  }

  /** A read of channel `sid` as transaction `ioid`: with the channel open at the server,
      the server accepts it and waits to answer that transaction on that channel. */
  lemma ReadArrives(
      server: Circuit.Circuit, dataType: nat, dataCount: nat, sid: Word32, ioid: Word32,
      rest: Bytes, parses: Bytes -> bool)
    requires Expected.Good(server)
    ensures var cmd := Seen(ReadNotifyRequest, Bare(dataType, dataCount, sid, ioid), rest, parses);
            && cmd.Some?
            && (Accepts(server, cmd.value) <==> OpenForUse(server, sid))
            && (Accepts(server, cmd.value) ==>
                  Circuit.Process(server, cmd.value).circuit ==
                  server.(ioids := server.ioids[ioid := server.channelsSid[sid]]))
  {
    var args := Bare(dataType, dataCount, sid, ioid);
    assert Proper(ReadNotifyRequest, args) && Received(ReadNotifyRequest) == ReadNotifyRequest;
    assert sid % 0x1_0000_0000 == sid && ioid % 0x1_0000_0000 == ioid;
    hide *;
    SeenFields(ReadNotifyRequest, args, rest, parses);
    TransactionOpened(server, Seen(ReadNotifyRequest, args, rest, parses).value);
  }

  /** The answer to transaction `ioid`: accepted by a client that waits for it, which then
      no longer does. */
  lemma AnswerArrives(
      client: Circuit.Circuit, dataType: nat, dataCount: nat, status: Word32, ioid: Word32,
      metadata: Bytes, data: Bytes, rest: Bytes, parses: Bytes -> bool)
    requires Expected.Good(client)
    requires Proper(ReadNotifyResponse, Value(dataType, dataCount, status, ioid, metadata, data))
    ensures var args := Value(dataType, dataCount, status, ioid, metadata, data);
            var cmd := Seen(ReadNotifyResponse, args, rest, parses);
            && cmd.Some?
            && (Accepts(client, cmd.value) <==> ioid in client.ioids)
            && Circuit.Process(client, cmd.value).circuit == client.(ioids := client.ioids - {ioid})
  {
    var args := Value(dataType, dataCount, status, ioid, metadata, data);
    assert Received(ReadNotifyResponse) == ReadNotifyResponse;
    assert ioid % 0x1_0000_0000 == ioid;
    hide *;
    SeenFields(ReadNotifyResponse, args, rest, parses);
    TransactionClosed(client, Seen(ReadNotifyResponse, args, rest, parses).value);
  }
}
