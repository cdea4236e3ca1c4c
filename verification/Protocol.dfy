/** Vocabulary of the Channel Access protocol shared by every other module: the two
    roles, the kinds of command, and the view of a command that the circuit acts on. */
module Protocol {

  datatype Option<+T> = None | Some(value: T)

  datatype Role = Client | Server {
    function Other(): Role {
      if Client? then Server else Client
    }
  }

  /** One value for each role, as the `states` dictionaries of the source hold. */
  datatype Pair<T> = Pair(client: T, server: T) {
    function Get(role: Role): T {
      if role.Client? then client else server
    }

    function Set(role: Role, value: T): Pair<T> {
      if role.Client? then Pair(value, server) else Pair(client, value)
    }
  }

  /** The command classes. */
  datatype Kind =
    | VersionRequest | VersionResponse
    | SearchRequest | SearchResponse | NotFoundResponse
    | EchoRequest | EchoResponse
    | Beacon | RepeaterConfirmResponse | RepeaterRegisterRequest
    | EventAddRequest | EventAddResponse
    | EventCancelRequest | EventCancelResponse
    | ReadRequest | ReadResponse | WriteRequest
    | EventsOffRequest | EventsOnRequest | ReadSyncRequest
    | ErrorResponse
    | ClearChannelRequest | ClearChannelResponse
    | ReadNotifyRequest | ReadNotifyResponse
    | CreateChanRequest | CreateChanResponse | CreateChFailResponse
    | WriteNotifyRequest | WriteNotifyResponse
    | ClientNameRequest | HostNameRequest
    | AccessRightsResponse | ServerDisconnResponse
  {
    /** DIRECTION is REQUEST: the class name ends in "Request". */
    predicate IsRequest() {
      || VersionRequest? || SearchRequest? || EchoRequest? || RepeaterRegisterRequest?
      || EventAddRequest? || EventCancelRequest? || ReadRequest? || WriteRequest?
      || EventsOffRequest? || EventsOnRequest? || ReadSyncRequest?
      || ClearChannelRequest? || ReadNotifyRequest? || CreateChanRequest?
      || WriteNotifyRequest? || ClientNameRequest? || HostNameRequest?
    }

    /** Commands that concern one channel rather than the whole circuit. */
    predicate ForChannel() {
      || ClearChannelRequest? || ClearChannelResponse? || CreateChanRequest?
      || CreateChanResponse? || CreateChFailResponse? || AccessRightsResponse?
      || ReadNotifyRequest? || ReadNotifyResponse? || ReadRequest? || ReadResponse?
      || WriteNotifyRequest? || WriteNotifyResponse? || WriteRequest?
      || EventAddRequest? || EventAddResponse? || EventCancelRequest?
      || EventCancelResponse? || ServerDisconnResponse?
    }

    /** Requests whose channel is found by server id. */
    predicate NamesSid() {
      ReadNotifyRequest? || WriteNotifyRequest? || WriteRequest? || ReadRequest? || EventAddRequest?
    }

    /** Requests that open an I/O transaction. */
    predicate OpensIo() {
      ReadNotifyRequest? || ReadRequest? || WriteNotifyRequest?
    }

    /** Responses that close an I/O transaction. */
    predicate ClosesIo() {
      ReadNotifyResponse? || ReadResponse? || WriteNotifyResponse?
    }
  }

  /** What a circuit reads from a command: its class and header fields. The named
      properties of the command classes are views of the two header parameters.
      `nameParses` tells, for a CreateChanRequest, whether the record filter in the
      channel name is well formed; the filter parser itself is not modelled. */
  datatype Command = Command(
    kind: Kind, payloadSize: nat, dataType: nat, dataCount: nat,
    parameter1: nat, parameter2: nat, nameParses: bool)
  {
    function Cid(): nat {
      if kind.ClearChannelRequest? || kind.ClearChannelResponse? then parameter2 else parameter1
    }

    function Sid(): nat {
      if kind.CreateChanResponse? then parameter2 else parameter1
    }

    function Ioid(): nat { parameter2 }

    function SubscriptionId(): nat { parameter2 }

    function Priority(): nat { dataType }

    function Version(): nat { dataCount }

    /** The data type code is one of ChannelType; reading the property raises otherwise. */
    predicate KnownType() { dataType <= 38 }
  }

  datatype Error =
    | LocalProtocolError
    | RemoteProtocolError
    | KeyError
    | AttributeError
    | FilterValidationError
    | ValueError                 // a data type code that is none
  {
    predicate IsProtocolError() {
      LocalProtocolError? || RemoteProtocolError?
    }
  }

  /** Who is to blame for a command of this kind, seen from `role`. */
  function GetException(role: Role, kind: Kind): Error {
    var atFault := if kind.IsRequest() then Client else Server;
    if role == atFault then LocalProtocolError else RemoteProtocolError
  }
}
