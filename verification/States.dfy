/** The transition tables of the circuit and of its channels, and how one command
    steps both roles of a channel. */
module States {
  import opened Protocol

  datatype CircuitPhase =
    | SendVersionRequest | AwaitVersionResponse
    | CircuitIdle | SendVersionResponse
    | CircuitConnected | Disconnected

  datatype ChannelPhase =
    | SendCreateChanRequest | AwaitCreateChanResponse
    | Idle | SendCreateChanResponse
    | Connected | MustClose | Closed | Failed

  type CircuitPhases = Pair<CircuitPhase>
  type ChannelPhases = Pair<ChannelPhase>

  const FRESH_CIRCUIT := Pair(SendVersionRequest, CircuitIdle)
  const FRESH_CHANNEL := Pair(SendCreateChanRequest, Idle)
  const DOWN := Pair(Disconnected, Disconnected)

  // ----- command-triggered transitions of the circuit

  predicate AcceptedWhileConnected(kind: Kind) {
    || kind.VersionResponse? || kind.VersionRequest?
    || kind.SearchResponse? || kind.SearchRequest? || kind.NotFoundResponse?
    || kind.HostNameRequest? || kind.ClientNameRequest?
    || kind.EventsOffRequest? || kind.EventsOnRequest?
    || kind.EchoRequest? || kind.EchoResponse?
    || kind.ErrorResponse?
  }

  function When<T>(allowed: bool, next: T): Option<T> {
    if allowed then Some(next) else None
  }

  function CircuitTable(role: Role, phase: CircuitPhase, kind: Kind): Option<CircuitPhase> {
    if phase.CircuitConnected? then
      When(AcceptedWhileConnected(kind), CircuitConnected)
    else if role.Client? then
      match phase
      case SendVersionRequest =>
        if kind.VersionRequest? then Some(AwaitVersionResponse)
        else When(kind.VersionResponse?, SendVersionRequest)
      case AwaitVersionResponse =>
        if kind.VersionResponse? then Some(CircuitConnected)
        else When(kind.HostNameRequest? || kind.ClientNameRequest? || kind.EchoRequest?
                  || kind.EchoResponse? || kind.ErrorResponse?,
                  AwaitVersionResponse)
      case _ => None
    else
      match phase
      case CircuitIdle =>
        if kind.VersionRequest? then Some(SendVersionResponse)
        else When(kind.VersionResponse?, CircuitIdle)
      case SendVersionResponse =>
        if kind.VersionResponse? then Some(CircuitConnected)
        else When(kind.HostNameRequest? || kind.ClientNameRequest? || kind.ErrorResponse?,
                  SendVersionResponse)
      case _ => None
  }

  // ----- command-triggered transitions of a channel

  /** Responses that may still be in flight when the client asks to close. */
  predicate MayBeInFlight(kind: Kind) {
    || kind.AccessRightsResponse?
    || kind.ReadNotifyResponse? || kind.ReadResponse? || kind.WriteNotifyResponse?
    || kind.EventAddResponse? || kind.EventCancelResponse?
  }

  /** Requests on an open channel, other than the one to close it. */
  predicate UsesChannel(kind: Kind) {
    || kind.ReadRequest? || kind.ReadNotifyRequest?
    || kind.WriteNotifyRequest? || kind.WriteRequest?
    || kind.EventAddRequest? || kind.EventCancelRequest?
  }

  function ChannelTable(role: Role, phase: ChannelPhase, kind: Kind): Option<ChannelPhase> {
    match phase
    // the entries that both roles share
    case Connected =>
      if kind.ClearChannelRequest? then Some(MustClose)
      else if kind.ServerDisconnResponse? then Some(Closed)
      else When(UsesChannel(kind) || MayBeInFlight(kind) || kind.ErrorResponse?, Connected)
    case MustClose =>
      if kind.ClearChannelResponse? || kind.ServerDisconnResponse? then Some(Closed)
      else When(MayBeInFlight(kind) || kind.ErrorResponse?, MustClose)
    case Failed =>
      When(kind.ClearChannelResponse? || kind.ServerDisconnResponse? || kind.ErrorResponse?, Failed)
    // the client only
    case SendCreateChanRequest =>
      if role.Server? then None
      else if kind.CreateChanRequest? then Some(AwaitCreateChanResponse)
      else When(kind.ErrorResponse?, SendCreateChanRequest)
    case AwaitCreateChanResponse =>
      if role.Server? then None
      else AnswerCreation(kind, AwaitCreateChanResponse)
    case Closed =>
      When(role.Client? && kind.EventCancelResponse?, Closed)
    // the server only
    case Idle =>
      When(role.Server? && kind.CreateChanRequest?, SendCreateChanResponse)
    case SendCreateChanResponse =>
      if role.Client? then None
      else AnswerCreation(kind, SendCreateChanResponse)
  }

  function AnswerCreation(kind: Kind, waiting: ChannelPhase): Option<ChannelPhase> {
    if kind.CreateChanResponse? then Some(Connected)
    else if kind.CreateChFailResponse? then Some(Failed)
    else When(kind.AccessRightsResponse? || kind.ErrorResponse?, waiting)
  }

  // ----- state-triggered transitions

  /** The new (channel, circuit) phases when the table has an entry for this pair.
      A server-side channel that is still Idle has none. */
  function StateTriggered(role: Role, channel: ChannelPhase, circuit: CircuitPhase)
    : Option<(ChannelPhase, CircuitPhase)>
  {
    var listed :=
      if role.Client? then !channel.Idle? && !channel.SendCreateChanResponse?
      else !channel.Idle? && !channel.SendCreateChanRequest? && !channel.AwaitCreateChanResponse?;
    When(circuit.Disconnected? && listed, (Closed, Disconnected))
  }

  /** A channel's phases together with the circuit phases it shares and may write back. */
  datatype Coupled = Coupled(channel: ChannelPhases, circuit: CircuitPhases)

  function FireStateTriggered(s: Coupled, role: Role): Coupled {
    match StateTriggered(role, s.channel.Get(role), s.circuit.Get(role))
    case None => s
    case Some((ch, ci)) => Coupled(s.channel.Set(role, ch), s.circuit.Set(role, ci))
  }

  /** ChannelState.update: the client role first, then the server role. */
  function Update(s: Coupled): Coupled {
    FireStateTriggered(FireStateTriggered(s, Client), Server)
  }

  /** ChannelState.process_command_type for one role. */
  function StepRole(s: Coupled, role: Role, kind: Kind): Option<Coupled> {
    match ChannelTable(role, s.channel.Get(role), kind)
    case None => None
    case Some(phase) => Some(Update(s.(channel := s.channel.Set(role, phase))))
  }

  /** What is left after both roles were stepped, one after the other: the second
      step may fail after the first has been written. */
  datatype Stepped = Stepped(state: Coupled, error: Option<Error>)

  function StepBothRoles(s: Coupled, ours: Role, kind: Kind): Stepped {
    match StepRole(s, ours, kind)
    case None => Stepped(s, Some(GetException(ours, kind)))
    case Some(s1) =>
      match StepRole(s1, ours.Other(), kind)
      case None => Stepped(s1, Some(GetException(ours.Other(), kind)))
      case Some(s2) => Stepped(s2, None)
  }
}
