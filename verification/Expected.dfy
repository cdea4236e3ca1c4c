/** The tables of a circuit that is up, and a guarded-command description of what each
    channel command does to them. `Process` computes by stepping two roles and popping
    entries before it validates; on well-kept tables it comes to the same. */
module Expected {
  import opened Protocol
  import opened States
  import opened Circuit
  import opened LockStep

  predicate IsOpen(ch: Channel) {
    ch.phases.client.Connected? || ch.phases.client.MustClose?
  }

  predicate Listed(c: Circuit, ref: nat)
    requires ref < |c.store|
  {
    c.store[ref].cid in c.channels && c.channels[c.store[ref].cid] == ref
  }

  /** The entry of a listed channel in the sid table. */
  predicate SidEntry(c: Circuit, ref: nat)
    requires ref < |c.store|
  {
    var ch := c.store[ref];
    if IsOpen(ch) then
      && ch.sid.Some?
      && ch.sid.value in c.channelsSid
      && c.channelsSid[ch.sid.value] == ref
    else
      ch.sid.None? && !ch.phases.client.Closed?
  }

  /** Channels are listed under their own cid and share the circuit's version; channels
      that are no longer listed are closed. */
  ghost predicate ChannelsKept(c: Circuit)
    requires c.Wf()
  {
    && (forall cid <- c.channels ::
          && c.store[c.channels[cid]].cid == cid
          && c.store[c.channels[cid]].version == c.version
          && SidEntry(c, c.channels[cid]))
    && (forall ref | 0 <= ref < |c.store| :: Listed(c, ref) || c.store[ref].phases.client.Closed?)
  }

  /** The sid table and the table of open transactions hold open, listed channels only. */
  ghost predicate SidTables(c: Circuit)
    requires c.Wf()
  {
    && (forall sid <- c.channelsSid ::
          var ref := c.channelsSid[sid];
          Listed(c, ref) && IsOpen(c.store[ref]) && c.store[ref].sid == Some(sid))
    && (forall ioid <- c.ioids ::
          var ref := c.ioids[ioid];
          Listed(c, ref) && IsOpen(c.store[ref]))
  }

  ghost predicate Tables(c: Circuit) {
    && c.Wf()
    && ChannelsKept(c)
    && SidTables(c)
    && (forall id <- c.eventCancels :: id in c.eventAdds)
  }

  /** A circuit that is up and whose ids have always been fresh. */
  ghost predicate Good(c: Circuit) {
    Tables(c) && RolesMatched(c) && c.phases != DOWN
  }

  function Phase(c: Circuit, ref: nat): ChannelPhase
    requires ref < |c.store|
  {
    c.store[ref].phases.client
  }

  function SetPhases(c: Circuit, ref: nat, phases: ChannelPhases): Circuit
    requires ref < |c.store|
  {
    c.(store := c.store[ref := c.store[ref].(phases := phases)])
  }

  function Blame(c: Circuit, cmd: Command): Result {
    Result(c, Rejected(GetException(c.ours, cmd.kind)))
  }

  function Stray(c: Circuit): Result {
    Result(c, Rejected(KeyError))
  }

  // ----- what each command is expected to do

  function ExpectedUse(c: Circuit, cmd: Command): Result
    requires c.Wf()
  {
    if cmd.Sid() in c.channelsSid && Phase(c, c.channelsSid[cmd.Sid()]).Connected? then
      var ref := c.channelsSid[cmd.Sid()];
      if cmd.kind.OpensIo() then OpenIo(c, ref, cmd.Ioid())
      else if cmd.kind.EventAddRequest? then NoteSubscription(c, cmd)
      else Accept(c)
    else
      Blame(c, cmd)
  }

  function ExpectedAnswer(c: Circuit, cmd: Command): Result {
    if cmd.Ioid() in c.ioids then Accept(c.(ioids := c.ioids - {cmd.Ioid()})) else Blame(c, cmd)
  }

  function ExpectedEvent(c: Circuit, cmd: Command): Result
    requires c.Wf()
  {
    var id := cmd.SubscriptionId();
    if id !in c.eventAdds then
      if cmd.kind.EventCancelResponse? then Result(c, Rejected(AttributeError))
      else if cmd.kind.EventAddResponse? && cmd.payloadSize == 0 then Result(c, Ignored)
      else Blame(c, cmd)
    else
      var add := c.eventAdds[id];
      if add.Sid() !in c.channelsSid then Stray(c)
      else if !add.KnownType() || !cmd.KnownType() then Result(c, Rejected(ValueError))
      else if add.dataType != cmd.dataType then Blame(c, cmd)
      else if cmd.kind.EventAddResponse? then
        if add.dataCount > 0 && add.dataCount != cmd.dataCount then Blame(c, cmd) else Accept(c)
      else if add.Sid() != cmd.Sid() then Blame(c, cmd)
      else if cmd.kind.EventCancelResponse? then ForgetSubscription(c, id)
      else if Phase(c, c.channelsSid[add.Sid()]).Connected? then NoteCancel(c, id)
      else Blame(c, cmd)
  }

  function Asked(c: Circuit, ref: nat): Result
    requires ref < |c.store|
  {
    Accept(SetPhases(c, ref, Pair(AwaitCreateChanResponse, SendCreateChanResponse)))
  }

  function ExpectedCreate(c: Circuit, cmd: Command): Result
    requires c.Wf()
  {
    if cmd.Cid() in c.channels then
      var ref := c.channels[cmd.Cid()];
      if Phase(c, ref).SendCreateChanRequest? then Asked(c, ref) else Blame(c, cmd)
    else if cmd.nameParses then
      Asked(NewChannel(c, cmd.Cid()), |c.store|)
    else
      Result(c, Rejected(FilterValidationError))
  }

  function WithNative(c: Circuit, ref: nat, cmd: Command): Circuit
    requires ref < |c.store|
  {
    c.(store := c.store[ref := c.store[ref].(nativeType := Some(cmd.dataType),
                                             nativeCount := Some(cmd.dataCount))])
  }

  function ExpectedConnect(c: Circuit, ref: nat, cmd: Command): Result
    requires ref < |c.store|
  {
    if !cmd.KnownType() then Result(c, Rejected(ValueError))
    else if Phase(c, ref).AwaitCreateChanResponse?
    then EnterSid(SetPhases(WithNative(c, ref, cmd), ref, Pair(Connected, Connected)), ref, cmd.Sid())
    else Blame(WithNative(c, ref, cmd), cmd)
  }

  function ExpectedRights(c: Circuit, ref: nat, cmd: Command): Result
    requires ref < |c.store|
  {
    var phase := Phase(c, ref);
    if phase.AwaitCreateChanResponse? || phase.Connected? || phase.MustClose?
    then SetRights(c, ref, cmd.parameter2)
    else Blame(c, cmd)
  }

  /** The two responses that remove a channel. */
  function ExpectedRemoval(c: Circuit, ref: nat, cmd: Command): Result
    requires ref < |c.store|
  {
    var phase := Phase(c, ref);
    if phase.MustClose? || (phase.Connected? && cmd.kind.ServerDisconnResponse?)
    then RemoveChannel(SetPhases(c, ref, Pair(Closed, Closed)), ref)
    else if phase.Failed? then Stray(c)
    else Blame(c, cmd)
  }

  /** A command that only moves a channel from one phase to the next. */
  function ExpectedMove(c: Circuit, ref: nat, cmd: Command, from: ChannelPhase, to: ChannelPhase): Result
    requires ref < |c.store|
  {
    if Phase(c, ref) == from then Accept(SetPhases(c, ref, Pair(to, to))) else Blame(c, cmd)
  }

  function ExpectedByCid(c: Circuit, cmd: Command): Result
    requires c.Wf()
  {
    if cmd.Cid() !in c.channels then Stray(c)
    else
      var ref := c.channels[cmd.Cid()];
      if cmd.kind.CreateChanResponse? then ExpectedConnect(c, ref, cmd)
      else if cmd.kind.CreateChFailResponse? then ExpectedMove(c, ref, cmd, AwaitCreateChanResponse, Failed)
      else if cmd.kind.AccessRightsResponse? then ExpectedRights(c, ref, cmd)
      else if cmd.kind.ClearChannelRequest? then ExpectedMove(c, ref, cmd, Connected, MustClose)
      else ExpectedRemoval(c, ref, cmd)
  }

  function Expect(c: Circuit, cmd: Command): Result
    requires c.Wf()
  {
    if cmd.kind.NamesSid() then ExpectedUse(c, cmd)
    else if cmd.kind.ClosesIo() then ExpectedAnswer(c, cmd)
    else if cmd.kind.EventCancelRequest? || cmd.kind.EventAddResponse? || cmd.kind.EventCancelResponse?
    then ExpectedEvent(c, cmd)
    else if cmd.kind.CreateChanRequest? then ExpectedCreate(c, cmd)
    else ExpectedByCid(c, cmd)
  }

  // ----- the step of one channel while the circuit is up

  /** Where the tables of both roles lead from matched phases; None if refused. */
  function BothTables(phase: ChannelPhase, kind: Kind): Option<ChannelPhases> {
    match phase
    case SendCreateChanRequest =>
      When(kind.CreateChanRequest?, Pair(AwaitCreateChanResponse, SendCreateChanResponse))
    case AwaitCreateChanResponse =>
      if kind.CreateChanResponse? then Some(Pair(Connected, Connected))
      else if kind.CreateChFailResponse? then Some(Pair(Failed, Failed))
      else When(kind.AccessRightsResponse?, Pair(AwaitCreateChanResponse, SendCreateChanResponse))
    case Connected =>
      if kind.ClearChannelRequest? then Some(Pair(MustClose, MustClose))
      else if kind.ServerDisconnResponse? then Some(Pair(Closed, Closed))
      else When(UsesChannel(kind) || MayBeInFlight(kind), Pair(Connected, Connected))
    case MustClose =>
      if kind.ClearChannelResponse? || kind.ServerDisconnResponse? then Some(Pair(Closed, Closed))
      else When(MayBeInFlight(kind), Pair(MustClose, MustClose))
    case Failed =>
      When(kind.ClearChannelResponse? || kind.ServerDisconnResponse?, Pair(Failed, Failed))
    case _ => None
  }

  lemma BothTablesShared(phase: ChannelPhase, role: Role, kind: Kind)
    requires phase.Connected? || phase.MustClose? || phase.Failed?
    requires !kind.ErrorResponse?
    ensures ChannelTable(role, phase, kind) ==
            match BothTables(phase, kind)
            case None => None
            case Some(next) => Some(next.Get(role))
  {
    hide UsesChannel, MayBeInFlight;
  }

  lemma BothTablesOpening(p: ChannelPhases, role: Role, kind: Kind)
    requires p == FRESH_CHANNEL || p == Pair(AwaitCreateChanResponse, SendCreateChanResponse)
    requires !kind.ErrorResponse?
    ensures ChannelTable(role, p.Get(role), kind) ==
            match BothTables(p.client, kind)
            case None => None
            case Some(next) => Some(next.Get(role))
  {
    OpeningEntries(kind);
    hide ChannelTable;
  }

  /** On matched phases the two tables agree about every channel command, except that a
      closed client channel tolerates a late cancel confirmation. */
  lemma BothTablesForm(p: ChannelPhases, role: Role, kind: Kind)
    requires MatchedChannel(p) && !p.client.Closed? && kind.ForChannel()
    ensures ChannelTable(role, p.Get(role), kind) ==
            match BothTables(p.client, kind)
            case None => None
            case Some(next) => Some(next.Get(role))
  {
    hide ChannelTable, BothTables;
    if p.client.Connected? || p.client.MustClose? || p.client.Failed? {
      BothTablesShared(p.client, role, kind);
    } else {
      BothTablesOpening(p, role, kind);
    }
  }

  lemma StepBothRolesForm(s: Coupled, ours: Role, kind: Kind)
    requires InLockStep(s) && s.circuit != DOWN && !s.channel.client.Closed?
    requires kind.ForChannel()
    ensures StepBothRoles(s, ours, kind) ==
            match BothTables(s.channel.client, kind)
            case None => Stepped(s, Some(GetException(ours, kind)))
            case Some(next) => Stepped(Coupled(next, s.circuit), None)
  {
    StepRoleUp(s, ours, kind);
    BothTablesForm(s.channel, ours, kind);
    BothTablesForm(s.channel, ours.Other(), kind);
    hide StepRole, ChannelTable, BothTables, Kind.ForChannel;
    match StepRole(s, ours, kind) {
      case None =>
      case Some(s1) => StepRoleUp(s1, ours.Other(), kind);
    }
  }

  lemma StepChannelForm(c: Circuit, ref: nat, cmd: Command)
    requires c.Wf() && RolesMatched(c) && c.phases != DOWN && ref < |c.store|
    requires !Phase(c, ref).Closed?
    requires cmd.kind.ForChannel() && !cmd.kind.CreateChanResponse?
    ensures StepChannel(c, ref, cmd) ==
            match BothTables(Phase(c, ref), cmd.kind)
            case None => Checked(c, Some(GetException(c.ours, cmd.kind)))
            case Some(next) => Checked(SetPhases(c, ref, next), None)
  {
    StepBothRolesForm(Coupled(c.store[ref].phases, c.phases), c.ours, cmd.kind);
    hide StepBothRoles, BothTables, InLockStep;
    assert c.store[ref := c.store[ref].(phases := c.store[ref].phases)] == c.store;
  }

  lemma KeepPhases(c: Circuit, ref: nat)
    requires RolesMatched(c) && c.phases != DOWN && ref < |c.store|
    requires !Phase(c, ref).Closed?
    ensures MatchedChannel(c.store[ref].phases)
    ensures forall next | next == c.store[ref].phases :: SetPhases(c, ref, next) == c
  {
    assert InLockStep(Coupled(c.store[ref].phases, c.phases));
    assert c.store[ref := c.store[ref].(phases := c.store[ref].phases)] == c.store;
  }

  // ----- on a good circuit, Process does what is expected

  /** The last two stages of `ProcessForChannel` once the channel has been identified. */
  lemma Pipeline(c: Circuit, cmd: Command, c1: Circuit, ref: nat)
    requires c.Wf() && Identify(c, cmd) == Found(c1, ref)
    requires c1.Wf() && ref < |c1.store| && c1.ours == c.ours
    requires RolesMatched(c1) && c1.phases != DOWN && !Phase(c1, ref).Closed?
    requires cmd.kind.ForChannel() && !cmd.kind.CreateChanResponse?
    requires SubscriptionError(c1, cmd).None?
    ensures ProcessForChannel(c, cmd) ==
            match BothTables(Phase(c1, ref), cmd.kind)
            case None => Blame(c1, cmd)
            case Some(next) => Effects(SetPhases(c1, ref, next), ref, cmd)
  {
    StepChannelForm(c1, ref, cmd);
    hide StepChannel, BothTables, Identify, Effects, SubscriptionError, RolesMatched, Circuit.Wf, Kind.ForChannel;
  }

  lemma OpenEntry(c: Circuit, ref: nat)
    requires Good(c)
    requires ref in c.channelsSid.Values || ref in c.ioids.Values
    ensures ref < |c.store| && IsOpen(c.store[ref])
    ensures c.store[ref].phases == Pair(Phase(c, ref), Phase(c, ref))
    ensures SetPhases(c, ref, Pair(Phase(c, ref), Phase(c, ref))) == c
  {
    assert IsOpen(c.store[ref]);
    KeepPhases(c, ref);
  }

  lemma ListedEntry(c: Circuit, cid: nat)
    requires Good(c) && cid in c.channels
    ensures var ref := c.channels[cid];
            && ref < |c.store|
            && c.store[ref].cid == cid
            && !Phase(c, ref).Closed?
            && (Phase(c, ref).Failed? ==> c.store[ref].sid.None?)
            && InLockStep(Coupled(c.store[ref].phases, c.phases))
            && forall next | next == c.store[ref].phases :: SetPhases(c, ref, next) == c
  {
    assert SidEntry(c, c.channels[cid]);
    KeepPhases(c, c.channels[cid]);
  }

  lemma BothTablesOpen(phase: ChannelPhase, kind: Kind)
    requires phase.Connected? || phase.MustClose?
    ensures UsesChannel(kind) ==>
              BothTables(phase, kind) == When(phase.Connected?, Pair(Connected, Connected))
    ensures MayBeInFlight(kind) ==> BothTables(phase, kind) == Some(Pair(phase, phase))
  {}

  lemma UseAsExpected(c: Circuit, cmd: Command)
    requires Good(c) && cmd.kind.NamesSid()
    ensures ProcessForChannel(c, cmd) == ExpectedUse(c, cmd)
  {
    assert Identify(c, cmd) == FromTable(c, c.channelsSid, cmd.Sid(), GetException(c.ours, cmd.kind));
    if cmd.Sid() in c.channelsSid {
      var ref := c.channelsSid[cmd.Sid()];
      assert SubscriptionError(c, cmd).None?;
      hide SubscriptionError, Identify;
      OpenEntry(c, ref);
      Pipeline(c, cmd, c, ref);
      BothTablesOpen(Phase(c, ref), cmd.kind);
      hide ProcessForChannel, SetPhases, Good, BothTables, OpenIo, NoteSubscription;
    }
  }

  lemma AnswerAsExpected(c: Circuit, cmd: Command)
    requires Good(c) && cmd.kind.ClosesIo()
    ensures ProcessForChannel(c, cmd) == ExpectedAnswer(c, cmd)
  {
    var c1 := c.(ioids := c.ioids - {cmd.Ioid()});
    assert Identify(c, cmd) == FromTable(c1, c.ioids, cmd.Ioid(), GetException(c.ours, cmd.kind));
    hide Identify;
    if cmd.Ioid() in c.ioids {
      var ref := c.ioids[cmd.Ioid()];
      OpenEntry(c, ref);
      assert c.Wf() && c1.Wf() && RolesMatched(c1);
      hide ProcessForChannel, Good, RolesMatched, Circuit.Wf;
      AnswerOnChannel(c, c1, ref, cmd);
    }
  }

  lemma AnswerOnChannel(c: Circuit, c1: Circuit, ref: nat, cmd: Command)
    requires c.Wf() && cmd.kind.ClosesIo() && Identify(c, cmd) == Found(c1, ref)
    requires c1.Wf() && ref < |c1.store| && c1.ours == c.ours && RolesMatched(c1) && c1.phases != DOWN
    requires IsOpen(c1.store[ref]) && c1.store[ref].phases == Pair(Phase(c1, ref), Phase(c1, ref))
    ensures ProcessForChannel(c, cmd) == Accept(c1)
  {
    assert SubscriptionError(c1, cmd).None?;
    BothTablesOpen(Phase(c1, ref), cmd.kind);
    assert SetPhases(c1, ref, Pair(Phase(c1, ref), Phase(c1, ref))) == c1;
    hide ProcessForChannel, BothTables, SubscriptionError, Identify, RolesMatched, Circuit.Wf, SetPhases;
    Pipeline(c, cmd, c1, ref);
    EffectsOfAnswer(c1, ref, cmd);
    hide Effects;
  }

  lemma EffectsOfAnswer(c: Circuit, ref: nat, cmd: Command)
    requires ref < |c.store| && cmd.kind.ClosesIo()
    ensures Effects(c, ref, cmd) == Accept(c)
  {}

  /** The first two stages for commands that name a subscription. */
  lemma IdentifyEvent(c: Circuit, cmd: Command)
    requires Good(c)
    requires cmd.kind.EventCancelRequest? || cmd.kind.EventAddResponse? || cmd.kind.EventCancelResponse?
    requires cmd.SubscriptionId() in c.eventAdds
    ensures Identify(c, cmd) ==
            FromTable(c, c.channelsSid, c.eventAdds[cmd.SubscriptionId()].Sid(), KeyError)
  {}

  lemma EventOnChannel(c: Circuit, cmd: Command)
    requires Good(c)
    requires cmd.kind.EventCancelRequest? || cmd.kind.EventAddResponse? || cmd.kind.EventCancelResponse?
    requires cmd.SubscriptionId() in c.eventAdds
    requires c.eventAdds[cmd.SubscriptionId()].Sid() in c.channelsSid && SubscriptionError(c, cmd).None?
    ensures ProcessForChannel(c, cmd) == ExpectedEvent(c, cmd)
  {
    IdentifyEvent(c, cmd);
    hide Identify, ProcessForChannel, SubscriptionError, Effects;
    var ref := c.channelsSid[c.eventAdds[cmd.SubscriptionId()].Sid()];
    OpenEntry(c, ref);
    Pipeline(c, cmd, c, ref);
    BothTablesOpen(Phase(c, ref), cmd.kind);
    assert c.Wf();
    hide SetPhases, Good, BothTables, ExpectedEvent, Circuit.Wf;
    EventEffects(c, ref, cmd);
  }

  /** The last stage, once nothing is wrong with the subscription. */
  lemma EventEffects(c: Circuit, ref: nat, cmd: Command)
    requires c.Wf() && ref < |c.store|
    requires cmd.kind.EventCancelRequest? || cmd.kind.EventAddResponse? || cmd.kind.EventCancelResponse?
    requires cmd.SubscriptionId() in c.eventAdds && SubscriptionError(c, cmd).None?
    requires var sid := c.eventAdds[cmd.SubscriptionId()].Sid();
             sid in c.channelsSid && c.channelsSid[sid] == ref
    ensures ExpectedEvent(c, cmd) ==
            if cmd.kind.EventCancelRequest? && !Phase(c, ref).Connected? then Blame(c, cmd)
            else Effects(c, ref, cmd)
  {
    hide NoteCancel, ForgetSubscription, Circuit.Wf;
  }

  lemma EventAsExpected(c: Circuit, cmd: Command)
    requires Good(c)
    requires cmd.kind.EventCancelRequest? || cmd.kind.EventAddResponse? || cmd.kind.EventCancelResponse?
    ensures ProcessForChannel(c, cmd) == ExpectedEvent(c, cmd)
  {
    hide StepChannel, Effects, Good;
    if cmd.SubscriptionId() in c.eventAdds {
      IdentifyEvent(c, cmd);
      hide Identify;
      if c.eventAdds[cmd.SubscriptionId()].Sid() in c.channelsSid && SubscriptionError(c, cmd).None? {
        hide ExpectedEvent, ProcessForChannel;
        EventOnChannel(c, cmd);
      }
    }
  }

  lemma CreateAsExpected(c: Circuit, cmd: Command)
    requires Good(c) && cmd.kind.CreateChanRequest?
    ensures ProcessForChannel(c, cmd) == ExpectedCreate(c, cmd)
  {
    if cmd.Cid() in c.channels {
      CreateOnListed(c, cmd);
    } else if cmd.nameParses {
      CreateOnNew(c, cmd);
    }
    hide Good, ProcessForChannel, ExpectedCreate;
    if cmd.Cid() !in c.channels && !cmd.nameParses {
      CreateUnparsed(c, cmd);
    }
  }

  lemma CreateUnparsed(c: Circuit, cmd: Command)
    requires c.Wf() && cmd.kind.CreateChanRequest? && cmd.Cid() !in c.channels && !cmd.nameParses
    ensures ProcessForChannel(c, cmd) == ExpectedCreate(c, cmd)
  {
    hide StepChannel, Effects, SubscriptionError, Circuit.Wf;
  }

  lemma CreateOnListed(c: Circuit, cmd: Command)
    requires Good(c) && cmd.kind.CreateChanRequest? && cmd.Cid() in c.channels
    ensures ProcessForChannel(c, cmd) == ExpectedCreate(c, cmd)
  {
    var ref := c.channels[cmd.Cid()];
    assert c.Wf() && Listed(c, ref) && SidEntry(c, ref) && RolesMatched(c) && c.phases != DOWN;
    assert !Phase(c, ref).Closed? && Identify(c, cmd) == Found(c, ref);
    CreateStages(c, ref, cmd);
    EffectsOfCreate(SetPhases(c, ref, Pair(AwaitCreateChanResponse, SendCreateChanResponse)), ref, cmd);
    hide RolesMatched, Good, SidEntry, Listed, SetPhases, Circuit.Wf, Identify, SubscriptionError, Effects, BothTables;
    StepChannelForm(c, ref, cmd);
    hide StepChannel;
  }

  lemma CreateStages(c: Circuit, ref: nat, cmd: Command)
    requires cmd.kind.CreateChanRequest? && ref < |c.store|
    ensures SubscriptionError(c, cmd).None?
    ensures BothTables(Phase(c, ref), cmd.kind) ==
            When(Phase(c, ref).SendCreateChanRequest?, Pair(AwaitCreateChanResponse, SendCreateChanResponse))
  {}

  lemma EffectsOfCreate(c: Circuit, ref: nat, cmd: Command)
    requires ref < |c.store| && cmd.kind.CreateChanRequest?
    ensures Effects(c, ref, cmd) == Accept(c)
  {}

  lemma CreateOnNew(c: Circuit, cmd: Command)
    requires Good(c) && cmd.kind.CreateChanRequest? && cmd.Cid() !in c.channels && cmd.nameParses
    ensures ProcessForChannel(c, cmd) == ExpectedCreate(c, cmd)
  {
    var c1 := NewChannel(c, cmd.Cid());
    FreshChannelMatched(c.phases);
    assert c.Wf() && c1.Wf() && RolesMatched(c1);
    hide Good, RolesMatched, Circuit.Wf;
    StepChannelForm(c1, |c.store|, cmd);
    hide StepChannel;
  }

  lemma ConnectStepForm(c: Circuit, ref: nat, cmd: Command)
    requires ref < |c.store| && cmd.kind.CreateChanResponse?
    requires InLockStep(Coupled(c.store[ref].phases, c.phases)) && c.phases != DOWN
    requires !Phase(c, ref).Closed?
    ensures StepChannel(c, ref, cmd) ==
            if !cmd.KnownType() then Checked(c, Some(ValueError))
            else if Phase(c, ref).AwaitCreateChanResponse?
            then Checked(SetPhases(WithNative(c, ref, cmd), ref, Pair(Connected, Connected)), None)
            else Checked(WithNative(c, ref, cmd), Some(GetException(c.ours, cmd.kind)))
  {
    StepBothRolesForm(Coupled(c.store[ref].phases, c.phases), c.ours, cmd.kind);
    hide StepBothRoles, InLockStep;
    assert BothTables(Phase(c, ref), cmd.kind) ==
           When(Phase(c, ref).AwaitCreateChanResponse?, Pair(Connected, Connected));
    hide BothTables;
  }

  lemma ConnectAsExpected(c: Circuit, cmd: Command)
    requires Good(c) && cmd.kind.CreateChanResponse?
    ensures ProcessForChannel(c, cmd) == ExpectedByCid(c, cmd)
  {
    assert Identify(c, cmd) == FromTable(c, c.channels, cmd.Cid(), KeyError);
    hide Identify;
    if cmd.Cid() in c.channels {
      var ref := c.channels[cmd.Cid()];
      ListedEntry(c, cmd.Cid());
      hide Good, SetPhases, WithNative, EnterSid, InLockStep;
      ConnectStepForm(c, ref, cmd);
      hide StepChannel;
    }
  }

  lemma BothTablesByCid(phase: ChannelPhase, kind: Kind)
    requires !phase.Closed? && !phase.Idle? && !phase.SendCreateChanResponse?
    ensures kind.CreateChFailResponse? ==>
              BothTables(phase, kind) == When(phase.AwaitCreateChanResponse?, Pair(Failed, Failed))
    ensures kind.AccessRightsResponse? ==>
              BothTables(phase, kind) ==
              if phase.AwaitCreateChanResponse? then Some(Pair(AwaitCreateChanResponse, SendCreateChanResponse))
              else When(phase.Connected? || phase.MustClose?, Pair(phase, phase))
    ensures kind.ClearChannelRequest? ==>
              BothTables(phase, kind) == When(phase.Connected?, Pair(MustClose, MustClose))
    ensures kind.ClearChannelResponse? || kind.ServerDisconnResponse? ==>
              BothTables(phase, kind) ==
              if phase.Failed? then Some(Pair(Failed, Failed))
              else When(phase.MustClose? || (phase.Connected? && kind.ServerDisconnResponse?), Pair(Closed, Closed))
  {}

  /** The pipeline for commands that name a listed channel by cid. */
  lemma PipelineByCid(c: Circuit, cmd: Command)
    requires Good(c) && cmd.Cid() in c.channels
    requires cmd.kind.CreateChFailResponse? || cmd.kind.AccessRightsResponse? || cmd.kind.ClearChannelRequest?
             || cmd.kind.ClearChannelResponse? || cmd.kind.ServerDisconnResponse?
    ensures c.channels[cmd.Cid()] < |c.store|
    ensures var ref := c.channels[cmd.Cid()];
            ProcessForChannel(c, cmd) ==
            match BothTables(Phase(c, ref), cmd.kind)
            case None => Blame(c, cmd)
            case Some(next) => Effects(SetPhases(c, ref, next), ref, cmd)
  {
    var ref := c.channels[cmd.Cid()];
    assert Identify(c, cmd) == Found(c, ref);
    ListedEntry(c, cmd.Cid());
    hide Identify, StepChannel, Effects, SetPhases, BothTables;
    assert SubscriptionError(c, cmd).None?;
    hide SubscriptionError;
    Pipeline(c, cmd, c, ref);
    hide ProcessForChannel;
  }

  lemma CloseAsExpected(c: Circuit, cmd: Command)
    requires Good(c)
    requires cmd.kind.ClearChannelResponse? || cmd.kind.ServerDisconnResponse?
    ensures ProcessForChannel(c, cmd) == ExpectedByCid(c, cmd)
  {
    if cmd.Cid() in c.channels {
      var ref := c.channels[cmd.Cid()];
      ListedEntry(c, cmd.Cid());
      PipelineByCid(c, cmd);
      BothTablesByCid(Phase(c, ref), cmd.kind);
      hide ProcessForChannel, Good, BothTables, RolesMatched, SetPhases;
    } else {
      assert Identify(c, cmd) == FromTable(c, c.channels, cmd.Cid(), KeyError);
      hide Identify, Good;
    }
  }

  lemma ByCidAsExpected(c: Circuit, cmd: Command)
    requires Good(c)
    requires cmd.kind.CreateChFailResponse? || cmd.kind.AccessRightsResponse? || cmd.kind.ClearChannelRequest?
    ensures ProcessForChannel(c, cmd) == ExpectedByCid(c, cmd)
  {
    if cmd.Cid() in c.channels {
      var ref := c.channels[cmd.Cid()];
      ListedEntry(c, cmd.Cid());
      PipelineByCid(c, cmd);
      BothTablesByCid(Phase(c, ref), cmd.kind);
      hide ProcessForChannel, Good, BothTables, RolesMatched, SetPhases, SetRights;
    } else {
      assert Identify(c, cmd) == FromTable(c, c.channels, cmd.Cid(), KeyError);
      hide Identify, Good;
    }
  }

  /** On a circuit that is up, with ids that were fresh when introduced, processing any
      channel command is exactly its guarded effect, rejections included. */
  lemma ProcessAsExpected(c: Circuit, cmd: Command)
    requires Good(c) && cmd.kind.ForChannel()
    ensures ProcessForChannel(c, cmd) == Expect(c, cmd)
  {
    hide ProcessForChannel, ExpectedUse, ExpectedAnswer, ExpectedEvent, ExpectedCreate, ExpectedByCid, Good;
    if cmd.kind.NamesSid() {
      UseAsExpected(c, cmd);
    } else if cmd.kind.ClosesIo() {
      AnswerAsExpected(c, cmd);
    } else if cmd.kind.EventCancelRequest? || cmd.kind.EventAddResponse? || cmd.kind.EventCancelResponse? {
      EventAsExpected(c, cmd);
    } else if cmd.kind.CreateChanRequest? {
      CreateAsExpected(c, cmd);
    } else if cmd.kind.CreateChanResponse? {
      ConnectAsExpected(c, cmd);
    } else if cmd.kind.ClearChannelResponse? || cmd.kind.ServerDisconnResponse? {
      CloseAsExpected(c, cmd);
    } else {
      ByCidAsExpected(c, cmd);
    }
  }
}
