/** One virtual circuit as a value: its tables, and what processing one command does to
    them, step by step and without rollback. A channel object is named by its position
    in `store`, the list of all channel objects ever made on the circuit. */
module Circuit {
  import opened Protocol
  import opened States

  datatype Channel = Channel(
    cid: nat, phases: ChannelPhases, sid: Option<nat>,
    nativeType: Option<nat>, nativeCount: Option<nat>,
    accessRights: Option<nat>, version: nat)

  datatype Circuit = Circuit(
    ours: Role,
    phases: CircuitPhases,
    store: seq<Channel>,
    channels: map<nat, nat>,              // cid to channel
    channelsSid: map<nat, nat>,           // sid to channel
    ioids: map<nat, nat>,                 // ioid to channel
    eventAdds: map<nat, Command>,         // subscription id to EventAddRequest
    eventCancels: map<nat, Command>,      // the same, once a cancel was requested
    priority: Option<nat>,
    version: nat)
  {
    /** Every reference leads to a channel. */
    predicate Wf() {
      && (forall cid <- channels :: channels[cid] < |store|)
      && (forall sid <- channelsSid :: channelsSid[sid] < |store|)
      && (forall ioid <- ioids :: ioids[ioid] < |store|)
    }
  }

  datatype Outcome = Accepted | Ignored | Rejected(error: Error)

  datatype Result = Result(circuit: Circuit, outcome: Outcome)

  function Initial(ours: Role, priority: Option<nat>, version: nat): Circuit {
    Circuit(ours, FRESH_CIRCUIT, [], map[], map[], map[], map[], map[], priority, version)
  }

  // ----- creating a channel

  function FreshChannel(cid: nat, version: nat): Channel {
    Channel(cid, FRESH_CHANNEL, None, None, None, None, version)
  }

  /** Constructing a channel enters it under its cid, over any older entry. */
  function NewChannel(c: Circuit, cid: nat): Circuit {
    c.(store := c.store + [FreshChannel(cid, c.version)],
       channels := c.channels[cid := |c.store|])
  }

  // ----- losing the connection

  function UpdatedChannel(ch: Channel, circuit: CircuitPhases): Channel {
    ch.(phases := Update(Coupled(ch.phases, circuit)).channel)
  }

  /** Every channel in the cid table reacts to the circuit's phases. */
  function UpdateListed(c: Circuit): Circuit {
    c.(store := seq(|c.store|, i requires 0 <= i < |c.store| =>
         if i in c.channels.Values then UpdatedChannel(c.store[i], c.phases) else c.store[i]))
  }

  function Disconnect(c: Circuit): Circuit {
    UpdateListed(c.(phases := DOWN))
  }

  // ----- which channel a command is about

  datatype Target =
    | Found(circuit: Circuit, ref: nat)
    | Dropped
    | Missing(error: Error)

  function FromTable(c: Circuit, table: map<nat, nat>, key: nat, otherwise: Error): Target {
    if key in table then Found(c, table[key]) else Missing(otherwise)
  }

  function Identify(c: Circuit, cmd: Command): Target {
    var unknown := GetException(c.ours, cmd.kind);
    if cmd.kind.NamesSid() then
      FromTable(c, c.channelsSid, cmd.Sid(), unknown)
    else if cmd.kind.ClosesIo() then
      // the transaction is removed before anything is validated
      FromTable(c.(ioids := c.ioids - {cmd.Ioid()}), c.ioids, cmd.Ioid(), unknown)
    else if cmd.kind.EventCancelRequest? then
      if cmd.SubscriptionId() in c.eventAdds then
        FromTable(c, c.channelsSid, c.eventAdds[cmd.SubscriptionId()].Sid(), KeyError)
      else
        Missing(unknown)
    else if cmd.kind.EventAddResponse? || cmd.kind.EventCancelResponse? then
      if cmd.SubscriptionId() in c.eventAdds then
        FromTable(c, c.channelsSid, c.eventAdds[cmd.SubscriptionId()].Sid(), KeyError)
      else if cmd.kind.EventCancelResponse? then
        Missing(AttributeError)   // this class has no payload_size to look at
      else if cmd.payloadSize == 0 then
        Dropped
      else
        Missing(unknown)
    else if cmd.kind.CreateChanRequest? then
      if cmd.Cid() in c.channels then Found(c, c.channels[cmd.Cid()])
      else if cmd.nameParses then Found(NewChannel(c, cmd.Cid()), |c.store|)
      else Missing(FilterValidationError)
    else
      FromTable(c, c.channels, cmd.Cid(), KeyError)
  }

  /** Checks against the EventAddRequest that opened the subscription. */
  function SubscriptionError(c: Circuit, cmd: Command): Option<Error> {
    var kind := cmd.kind;
    if (kind.EventAddResponse? || kind.EventCancelRequest? || kind.EventCancelResponse?)
       && cmd.SubscriptionId() in c.eventAdds
    then
      var add := c.eventAdds[cmd.SubscriptionId()];
      if !add.KnownType() || !cmd.KnownType() then
        Some(ValueError)
      else if add.dataType != cmd.dataType then
        Some(GetException(c.ours, kind))
      else if kind.EventAddResponse? && add.dataCount > 0 && add.dataCount != cmd.dataCount then
        Some(GetException(c.ours, kind))
      else if !kind.EventAddResponse? && add.Sid() != cmd.Sid() then
        Some(GetException(c.ours, kind))
      else
        None
    else
      None
  }

  // ----- the state machine of that channel

  datatype Checked = Checked(circuit: Circuit, error: Option<Error>)

  /** Channel.process_command: native type and count are recorded before the check. */
  function StepChannel(c: Circuit, ref: nat, cmd: Command): Checked
    requires ref < |c.store|
  {
    if cmd.kind.CreateChanResponse? && !cmd.KnownType() then
      Checked(c, Some(ValueError))
    else
      StepKnown(c, ref, cmd)
  }

  function StepKnown(c: Circuit, ref: nat, cmd: Command): Checked
    requires ref < |c.store|
  {
    var ch := c.store[ref];
    var ch1 := if cmd.kind.CreateChanResponse?
               then ch.(nativeType := Some(cmd.dataType), nativeCount := Some(cmd.dataCount))
               else ch;
    var stepped := StepBothRoles(Coupled(ch1.phases, c.phases), c.ours, cmd.kind);
    Checked(c.(store := c.store[ref := ch1.(phases := stepped.state.channel)],
               phases := stepped.state.circuit),
            stepped.error)
  }

  // ----- updates once the state machine has accepted

  function WithoutChannel(ioids: map<nat, nat>, ref: nat): map<nat, nat> {
    map ioid | ioid in ioids && ioids[ioid] != ref :: ioids[ioid]
  }

  function Accept(c: Circuit): Result { Result(c, Accepted) }

  function Effects(c: Circuit, ref: nat, cmd: Command): Result
    requires ref < |c.store|
  {
    var kind := cmd.kind;
    if kind.AccessRightsResponse? then SetRights(c, ref, cmd.parameter2)
    else if kind.CreateChanResponse? then EnterSid(c, ref, cmd.Sid())
    else if kind.ServerDisconnResponse? || kind.ClearChannelResponse? then RemoveChannel(c, ref)
    else if kind.OpensIo() then OpenIo(c, ref, cmd.Ioid())
    else if kind.EventAddRequest? then NoteSubscription(c, cmd)
    else if kind.EventCancelRequest? then NoteCancel(c, cmd.SubscriptionId())
    else if kind.EventCancelResponse? then ForgetSubscription(c, cmd.SubscriptionId())
    else Accept(c)
  }

  function SetRights(c: Circuit, ref: nat, rights: nat): Result
    requires ref < |c.store|
  {
    Accept(c.(store := c.store[ref := c.store[ref].(accessRights := Some(rights))]))
  }

  function EnterSid(c: Circuit, ref: nat, sid: nat): Result
    requires ref < |c.store|
  {
    Accept(c.(store := c.store[ref := c.store[ref].(sid := Some(sid), version := c.version)],
              channelsSid := c.channelsSid[sid := ref]))
  }

  function OpenIo(c: Circuit, ref: nat, ioid: nat): Result {
    Accept(c.(ioids := c.ioids[ioid := ref]))
  }

  function NoteSubscription(c: Circuit, cmd: Command): Result {
    Accept(c.(eventAdds := c.eventAdds[cmd.SubscriptionId() := cmd]))
  }

  function NoteCancel(c: Circuit, id: nat): Result {
    if id in c.eventAdds then
      Accept(c.(eventCancels := c.eventCancels[id := c.eventAdds[id]]))
    else
      Result(c, Rejected(KeyError))
  }

  /** Two removals: the first stays done when the second fails. */
  function ForgetSubscription(c: Circuit, id: nat): Result {
    if id !in c.eventAdds then
      Result(c, Rejected(KeyError))
    else
      var c1 := c.(eventAdds := c.eventAdds - {id});
      if id !in c.eventCancels then
        Result(c1, Rejected(KeyError))
      else
        Accept(c1.(eventCancels := c.eventCancels - {id}))
  }

  /** Forgetting a closed channel: three removals, each of which may fail. */
  function RemoveChannel(c: Circuit, ref: nat): Result
    requires ref < |c.store|
  {
    var ch := c.store[ref];
    if ch.sid.None? || ch.sid.value !in c.channelsSid then
      Result(c, Rejected(KeyError))
    else
      var c1 := c.(channelsSid := c.channelsSid - {ch.sid.value});
      if ch.cid !in c.channels then
        Result(c1, Rejected(KeyError))
      else
        Accept(c1.(channels := c.channels - {ch.cid}, ioids := WithoutChannel(c.ioids, ref)))
  }

  function ProcessForChannel(c: Circuit, cmd: Command): Result
    requires c.Wf()
  {
    match Identify(c, cmd)
    case Dropped => Result(c, Ignored)
    case Missing(error) => Result(c, Rejected(error))
    case Found(c1, ref) =>
      var subscriptionError := SubscriptionError(c1, cmd);
      if subscriptionError.Some? then
        Result(c1, Rejected(subscriptionError.value))
      else
        var checked := StepChannel(c1, ref, cmd);
        if checked.error.Some? then
          Result(checked.circuit, Rejected(checked.error.value))
        else
          Effects(checked.circuit, ref, cmd)
  }

  // ----- commands about the circuit as a whole

  /** CircuitState.process_command_type for one role; listed channels follow. */
  function StepCircuitRole(c: Circuit, role: Role, kind: Kind): Checked {
    match CircuitTable(role, c.phases.Get(role), kind)
    case None => Checked(c, Some(GetException(role, kind)))
    case Some(phase) => Checked(UpdateListed(c.(phases := c.phases.Set(role, phase))), None)
  }

  function LowerVersion(c: Circuit, offered: nat): Circuit {
    var version := if offered < c.version then offered else c.version;
    c.(version := version,
       store := seq(|c.store|, i requires 0 <= i < |c.store| =>
         if i in c.channels.Values then c.store[i].(version := version) else c.store[i]))
  }

  function Negotiate(c: Circuit, cmd: Command): Result {
    if cmd.kind.VersionRequest? then
      if c.priority.Some? && c.priority.value != cmd.Priority() then
        Result(c, Rejected(GetException(c.ours, cmd.kind)))
      else
        Accept(LowerVersion(c.(priority := Some(cmd.Priority())), cmd.Version()))
    else if cmd.kind.VersionResponse? && cmd.Version() != 0 then
      Accept(LowerVersion(c, cmd.Version()))
    else
      Accept(c)
  }

  function ProcessForCircuit(c: Circuit, cmd: Command): Result {
    var first := StepCircuitRole(c, c.ours, cmd.kind);
    if first.error.Some? then
      Result(first.circuit, Rejected(first.error.value))
    else
      var second := StepCircuitRole(first.circuit, c.ours.Other(), cmd.kind);
      if second.error.Some? then
        Result(second.circuit, Rejected(second.error.value))
      else
        Negotiate(second.circuit, cmd)
  }

  // ----- every command

  /** An empty update for a subscription being cancelled is really the confirmation. */
  function Transmute(c: Circuit, cmd: Command): Command {
    if cmd.kind.EventAddResponse? && cmd.payloadSize == 0
       && cmd.SubscriptionId() in c.eventCancels
    then
      Command(EventCancelResponse, 0, cmd.dataType, cmd.dataCount,
              c.eventCancels[cmd.SubscriptionId()].Sid(), cmd.SubscriptionId(), cmd.nameParses)
    else
      cmd
  }

  function Process(c: Circuit, cmd: Command): Result
    requires c.Wf()
  {
    var meant := Transmute(c, cmd);
    if meant != cmd && !cmd.KnownType() then
      Result(c, Rejected(ValueError))       // the confirmation cannot be constructed
    else if meant.kind.ForChannel() then ProcessForChannel(c, meant) else ProcessForCircuit(c, meant)
  }
}
