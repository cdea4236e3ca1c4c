/** Properties of whole runs of one circuit: transactions are answered once, updates
    belong to live subscriptions, and a cancelled subscription goes away exactly once. */
module Runs {
  import opened Protocol
  import opened States
  import opened Circuit
  import opened LockStep
  import opened Expected
  import opened TablesKept

  // ----- transactions

  /** At step k a request opened transaction `ioid` on channel `ref`. */
  ghost predicate Opens(states: seq<Circuit>, actions: seq<Action>, k: nat, ioid: nat, ref: nat)
    requires IsRun(states, actions) && k < |actions|
  {
    match actions[k]
    case Handle(cmd) =>
      && cmd.kind.OpensIo() && cmd.Ioid() == ioid
      && cmd.Sid() in states[k].channelsSid && states[k].channelsSid[cmd.Sid()] == ref
      && Process(states[k], cmd).outcome.Accepted?
    case _ => false
  }

  /** At step k a response was accepted for transaction `ioid`. */
  ghost predicate Answers(states: seq<Circuit>, actions: seq<Action>, k: nat, ioid: nat)
    requires IsRun(states, actions) && k < |actions|
  {
    match actions[k]
    case Handle(cmd) =>
      cmd.kind.ClosesIo() && cmd.Ioid() == ioid && Process(states[k], cmd).outcome.Accepted?
    case _ => false
  }

  lemma StepChannelKeepsTables(c: Circuit, ref: nat, cmd: Command)
    requires ref < |c.store|
    ensures var c1 := StepChannel(c, ref, cmd).circuit;
            c1 == c.(store := c1.store, phases := c1.phases)
  {}

  lemma EffectsOnIoids(c: Circuit, ref: nat, cmd: Command)
    requires ref < |c.store|
    ensures var r := Effects(c, ref, cmd);
            if cmd.kind.OpensIo() then r == OpenIo(c, ref, cmd.Ioid())
            else forall ioid <- r.circuit.ioids :: ioid in c.ioids && r.circuit.ioids[ioid] == c.ioids[ioid]
  {}

  lemma IdentifyOnIoids(c: Circuit, cmd: Command)
    ensures var t := Identify(c, cmd);
            t.Found? ==>
              && (cmd.kind.NamesSid() ==> cmd.Sid() in c.channelsSid && t.ref == c.channelsSid[cmd.Sid()])
              && (cmd.kind.ClosesIo() ==> cmd.Ioid() in c.ioids && t.ref == c.ioids[cmd.Ioid()])
              && t.circuit.ioids == if cmd.kind.ClosesIo() then c.ioids - {cmd.Ioid()} else c.ioids
    ensures !Identify(c, cmd).Found? && cmd.kind.ClosesIo() ==> cmd.Ioid() !in c.ioids
  {}

  /** How `r`, the result of one command on `c`, may change the open transactions. */
  ghost predicate OnIoids(c: Circuit, cmd: Command, r: Result) {
    && (forall ioid <- r.circuit.ioids ::
          if cmd.kind.OpensIo() && r.outcome.Accepted? && cmd.Ioid() == ioid then
            cmd.Sid() in c.channelsSid && r.circuit.ioids[ioid] == c.channelsSid[cmd.Sid()]
          else
            ioid in c.ioids && r.circuit.ioids[ioid] == c.ioids[ioid])
    && (cmd.kind.ClosesIo() ==> cmd.Ioid() !in r.circuit.ioids)
    && (cmd.kind.ClosesIo() && r.outcome.Accepted? ==> cmd.Ioid() in c.ioids)
  }

  lemma ForChannelOnIoids(c: Circuit, cmd: Command)
    requires c.Wf()
    ensures OnIoids(c, cmd, ProcessForChannel(c, cmd))
  {
    hide Identify, SubscriptionError, StepChannel, Effects;
    IdentifyOnIoids(c, cmd);
    IdentifyKeeps(c, cmd);
    match Identify(c, cmd) {
      case Found(c1, ref) =>
        StepChannelKeepsTables(c1, ref, cmd);
        StepChannelKeeps(c1, ref, cmd);
        EffectsOnIoids(StepChannel(c1, ref, cmd).circuit, ref, cmd);
      case _ =>
    }
  }

  /** How one command changes the table of open transactions. */
  lemma ProcessOnIoids(c: Circuit, cmd: Command)
    requires c.Wf()
    ensures OnIoids(c, cmd, Process(c, cmd))
  {
    hide ProcessForChannel, ProcessForCircuit;
    var meant := Transmute(c, cmd);
    if meant.kind.ForChannel() {
      ForChannelOnIoids(c, meant);
    } else {
      CircuitCommandKeepsTables(c, meant);
    }
  }

  /** Commands about the circuit leave all five tables alone. */
  lemma CircuitCommandKeepsTables(c: Circuit, cmd: Command)
    requires c.Wf()
    ensures var r := ProcessForCircuit(c, cmd).circuit;
            && r.channels == c.channels && r.channelsSid == c.channelsSid
            && r.ioids == c.ioids
            && r.eventAdds == c.eventAdds && r.eventCancels == c.eventCancels
  {
    hide CircuitTable, UpdateListed, LowerVersion, StepCircuitRole, Negotiate;
    var first := StepCircuitRole(c, c.ours, cmd.kind).circuit;
    StepCircuitRoleKeepsTables(c, c.ours, cmd.kind);
    StepCircuitRoleKeepsTables(first, c.ours.Other(), cmd.kind);
    NegotiateKeepsTables(StepCircuitRole(first, c.ours.Other(), cmd.kind).circuit, cmd);
  }

  lemma StepCircuitRoleKeepsTables(c: Circuit, role: Role, kind: Kind)
    ensures var c1 := StepCircuitRole(c, role, kind).circuit;
            c1 == c.(phases := c1.phases, store := c1.store)
  {
    hide CircuitTable, UpdatedChannel;
  }

  lemma NegotiateKeepsTables(c: Circuit, cmd: Command)
    ensures var c1 := Negotiate(c, cmd).circuit;
            c1 == c.(priority := c1.priority, version := c1.version, store := c1.store)
  {}

  lemma {:induction false} OpenTransactionHasRequest(
      states: seq<Circuit>, actions: seq<Action>, n: nat, ioid: nat) returns (k: nat)
    requires IsRun(states, actions) && n < |states|
    requires states[0].ioids == map[] && ioid in states[n].ioids
    ensures k < n && Opens(states, actions, k, ioid, states[n].ioids[ioid])
    ensures forall m | k < m < n :: !Answers(states, actions, m, ioid)
  {
    hide Process;
    var before, a := states[n - 1], actions[n - 1];
    if a.Handle? {
      ProcessOnIoids(before, a.cmd);
      if a.cmd.kind.OpensIo() && Process(before, a.cmd).outcome.Accepted? && a.cmd.Ioid() == ioid {
        return n - 1;
      }
    }
    assert ioid in before.ioids && before.ioids[ioid] == states[n].ioids[ioid];
    k := OpenTransactionHasRequest(states, actions, n - 1, ioid);
    assert !Answers(states, actions, n - 1, ioid);
  }

  /** Exactly-once matching: an accepted response answers an earlier accepted request on
      the channel it is delivered to, and nothing answered that request in between. */
  lemma {:induction false} AnsweredOnce(states: seq<Circuit>, actions: seq<Action>, j: nat, ioid: nat)
    requires IsRun(states, actions) && j < |actions|
    requires states[0].ioids == map[] && Answers(states, actions, j, ioid)
    ensures ioid in states[j].ioids
    ensures exists k: nat ::
              && k < j && Opens(states, actions, k, ioid, states[j].ioids[ioid])
              && forall m | k < m < j :: !Answers(states, actions, m, ioid)
  {
    ProcessOnIoids(states[j], actions[j].cmd);
    hide Process;
    var k := OpenTransactionHasRequest(states, actions, j, ioid);
  }

  /** Removing the transaction before validating loses nothing: while the circuit is up,
      a response with a live ioid is accepted, and one without is refused. */
  lemma LiveResponseAccepted(c: Circuit, cmd: Command)
    requires Good(c) && cmd.kind.ClosesIo()
    ensures Process(c, cmd).outcome.Accepted? <==> cmd.Ioid() in c.ioids
    ensures Process(c, cmd).circuit == c.(ioids := c.ioids - {cmd.Ioid()})
  {
    ProcessAsExpected(c, cmd);
    hide ProcessForChannel, Good;
    if cmd.Ioid() !in c.ioids {
      assert c.ioids - {cmd.Ioid()} == c.ioids;
    }
  }

  // ----- subscriptions

  ghost predicate Subscribes(states: seq<Circuit>, actions: seq<Action>, k: nat, add: Command)
    requires IsRun(states, actions) && k < |actions|
  {
    actions[k] == Handle(add) && add.kind.EventAddRequest? && Process(states[k], add).outcome.Accepted?
  }

  /** At step k an update was accepted as an update. */
  ghost predicate Updates(states: seq<Circuit>, actions: seq<Action>, k: nat)
    requires IsRun(states, actions) && k < |actions|
  {
    && actions[k].Handle?
    && Transmute(states[k], actions[k].cmd).kind.EventAddResponse?
    && Process(states[k], actions[k].cmd).outcome.Accepted?
  }

  /** At step k the cancellation of subscription `id` was confirmed. */
  ghost predicate Confirms(states: seq<Circuit>, actions: seq<Action>, k: nat, id: nat)
    requires IsRun(states, actions) && k < |actions|
  {
    && actions[k].Handle?
    && Transmute(states[k], actions[k].cmd).kind.EventCancelResponse?
    && actions[k].cmd.SubscriptionId() == id
    && Process(states[k], actions[k].cmd).outcome.Accepted?
  }

  lemma IdentifyOnAdds(c: Circuit, cmd: Command)
    ensures var t := Identify(c, cmd);
            t.Found? ==> t.circuit.eventAdds == c.eventAdds && t.circuit.eventCancels == c.eventCancels
    ensures Identify(c, cmd).Found? && cmd.kind.EventAddResponse? ==> cmd.SubscriptionId() in c.eventAdds
  {}

  lemma EffectsOnAdds(c: Circuit, ref: nat, cmd: Command)
    requires ref < |c.store|
    ensures var r := Effects(c, ref, cmd);
            if cmd.kind.EventAddRequest? then r == NoteSubscription(c, cmd)
            else if cmd.kind.EventCancelResponse? then r == ForgetSubscription(c, cmd.SubscriptionId())
            else r.circuit.eventAdds == c.eventAdds
  {}

  /** How `r`, the result of one command on `c`, may change the subscriptions. `meant` is
      what the command was taken for. */
  ghost predicate OnAdds(c: Circuit, cmd: Command, meant: Command, r: Result) {
    && (forall id <- r.circuit.eventAdds ::
          if cmd.kind.EventAddRequest? && r.outcome.Accepted? && cmd.SubscriptionId() == id then
            r.circuit.eventAdds[id] == cmd
          else
            && id in c.eventAdds && r.circuit.eventAdds[id] == c.eventAdds[id])
    && (meant.kind.EventCancelResponse? && r.outcome.Accepted? ==> cmd.SubscriptionId() !in r.circuit.eventAdds)
  }

  lemma ForChannelOnAdds(c: Circuit, cmd: Command)
    requires c.Wf()
    ensures OnAdds(c, cmd, cmd, ProcessForChannel(c, cmd))
  {
    hide Identify, SubscriptionError, StepChannel, Effects;
    IdentifyOnAdds(c, cmd);
    IdentifyKeeps(c, cmd);
    match Identify(c, cmd) {
      case Found(c1, ref) =>
        StepChannelKeepsTables(c1, ref, cmd);
        StepChannelKeeps(c1, ref, cmd);
        EffectsOnAdds(StepChannel(c1, ref, cmd).circuit, ref, cmd);
      case _ =>
    }
  }

  /** How one command changes the table of subscriptions. */
  lemma ProcessOnAdds(c: Circuit, cmd: Command)
    requires c.Wf()
    ensures OnAdds(c, cmd, Transmute(c, cmd), Process(c, cmd))
  {
    hide ProcessForChannel, ProcessForCircuit;
    var meant := Transmute(c, cmd);
    if meant.kind.ForChannel() {
      ForChannelOnAdds(c, meant);
    } else {
      CircuitCommandKeepsTables(c, meant);
    }
  }

  lemma {:induction false} LiveSubscriptionHasRequest(
      states: seq<Circuit>, actions: seq<Action>, n: nat, id: nat) returns (k: nat)
    requires IsRun(states, actions) && n < |states|
    requires states[0].eventAdds == map[] && id in states[n].eventAdds
    ensures k < n && Subscribes(states, actions, k, states[n].eventAdds[id])
    ensures states[n].eventAdds[id].SubscriptionId() == id
    ensures forall m | k < m < n :: !Confirms(states, actions, m, id)
  {
    hide Process, Transmute;
    var before, a := states[n - 1], actions[n - 1];
    if a.Handle? {
      ProcessOnAdds(before, a.cmd);
      if a.cmd.kind.EventAddRequest? && Process(before, a.cmd).outcome.Accepted?
         && a.cmd.SubscriptionId() == id
      {
        return n - 1;
      }
    }
    assert id in before.eventAdds && before.eventAdds[id] == states[n].eventAdds[id];
    k := LiveSubscriptionHasRequest(states, actions, n - 1, id);
    assert !Confirms(states, actions, n - 1, id);
  }

  lemma UpdateFitsRequest(c: Circuit, cmd: Command)
    requires c.Wf()
    requires Transmute(c, cmd).kind.EventAddResponse? && Process(c, cmd).outcome.Accepted?
    ensures cmd.SubscriptionId() in c.eventAdds
    ensures var add := c.eventAdds[cmd.SubscriptionId()];
            add.dataType == cmd.dataType && (add.dataCount == 0 || add.dataCount == cmd.dataCount)
  {
    IdentifyOnAdds(c, cmd);
    IdentifyKeeps(c, cmd);
    hide Identify, StepChannel, Effects;
  }

  /** Subscription safety: an accepted update belongs to a subscription that was asked for
      and whose cancellation has not been confirmed, and has the type and count asked for. */
  lemma {:induction false} UpdateBelongsToSubscription(states: seq<Circuit>, actions: seq<Action>, j: nat)
    requires IsRun(states, actions) && j < |actions|
    requires states[0].eventAdds == map[] && Updates(states, actions, j)
    ensures exists k: nat, add: Command ::
              && k < j && Subscribes(states, actions, k, add)
              && add.SubscriptionId() == actions[j].cmd.SubscriptionId()
              && add.dataType == actions[j].cmd.dataType
              && (add.dataCount == 0 || add.dataCount == actions[j].cmd.dataCount)
              && forall m | k < m < j :: !Confirms(states, actions, m, add.SubscriptionId())
  {
    UpdateFitsRequest(states[j], actions[j].cmd);
    hide Process;
    var id := actions[j].cmd.SubscriptionId();
    var k := LiveSubscriptionHasRequest(states, actions, j, id);
  }

  // ----- the cancel race

  /** An update, or its empty look-alike, for subscription `id` as `add` asked for it. */
  predicate FitsSubscription(add: Command, id: nat, cmd: Command) {
    && cmd.kind.EventAddResponse? && cmd.SubscriptionId() == id && cmd.dataType == add.dataType
    && (cmd.payloadSize > 0 ==> add.dataCount == 0 || add.dataCount == cmd.dataCount)
  }

  /** Processing stops at the first command that is rejected. */
  function ProcessAll(c: Circuit, cmds: seq<Command>): Result
    requires c.Wf()
    decreases |cmds|
  {
    if cmds == [] then Accept(c)
    else
      var r := Process(c, cmds[0]);
      ExecKeepsWf(c, Handle(cmds[0]));
      if r.outcome.Rejected? then r else ProcessAll(r.circuit, cmds[1..])
  }

  /** No update with data follows an empty one. */
  predicate DataFirst(cmds: seq<Command>) {
    forall i, j | 0 <= i < j < |cmds| && cmds[i].payloadSize == 0 :: cmds[j].payloadSize == 0
  }

  predicate AllEmpty(cmds: seq<Command>) {
    forall cmd <- cmds :: cmd.payloadSize == 0
  }

  function Unsubscribed(c: Circuit, id: nat): Circuit {
    c.(eventAdds := c.eventAdds - {id}, eventCancels := c.eventCancels - {id})
  }

  /** A subscription on an open channel whose cancellation has been requested. */
  ghost predicate CancelPending(c: Circuit, id: nat) {
    && Good(c)
    && id in c.eventCancels && id in c.eventAdds
    && c.eventCancels[id].Sid() == c.eventAdds[id].Sid()
    && c.eventAdds[id].Sid() in c.channelsSid && c.eventAdds[id].KnownType()
  }

  /** An accepted cancel request brings the circuit there. */
  lemma CancelRequestAccepted(c: Circuit, q: Command)
    requires Good(c) && q.kind.EventCancelRequest? && Process(c, q).outcome.Accepted?
    ensures CancelPending(Process(c, q).circuit, q.SubscriptionId())
  {
    ProcessKeepsGood(c, q);
    ProcessAsExpected(c, q);
    hide ProcessForChannel, Good;
  }

  lemma DataWhilePending(c: Circuit, id: nat, cmd: Command)
    requires CancelPending(c, id) && FitsSubscription(c.eventAdds[id], id, cmd) && cmd.payloadSize > 0
    ensures Process(c, cmd) == Accept(c)
  {
    ProcessAsExpected(c, cmd);
    hide ProcessForChannel, Good;
  }

  lemma EmptyWhilePending(c: Circuit, id: nat, cmd: Command)
    requires CancelPending(c, id) && FitsSubscription(c.eventAdds[id], id, cmd) && cmd.payloadSize == 0
    ensures Process(c, cmd) == Accept(Unsubscribed(c, id))
  {
    ProcessAsExpected(c, Transmute(c, cmd));
    hide ProcessForChannel, Good;
  }

  lemma AfterConfirmation(c: Circuit, id: nat, cmd: Command)
    requires c.Wf() && id !in c.eventAdds && id !in c.eventCancels
    requires cmd.kind.EventAddResponse? && cmd.SubscriptionId() == id
    ensures cmd.payloadSize == 0 ==> Process(c, cmd) == Result(c, Ignored)
    ensures cmd.payloadSize > 0 ==> Process(c, cmd).outcome.Rejected?
  {
    hide StepChannel, Effects;
  }

  lemma {:induction false} EmptiesAfterConfirmation(c: Circuit, id: nat, cmds: seq<Command>)
    requires c.Wf() && id !in c.eventAdds && id !in c.eventCancels
    requires forall cmd <- cmds :: cmd.kind.EventAddResponse? && cmd.SubscriptionId() == id
    ensures AllEmpty(cmds) ==> ProcessAll(c, cmds) == Accept(c)
    ensures !AllEmpty(cmds) ==> ProcessAll(c, cmds).outcome.Rejected?
  {
    if cmds != [] {
      AfterConfirmation(c, id, cmds[0]);
      EmptiesAfterConfirmation(c, id, cmds[1..]);
      hide Process;
      assert forall cmd <- cmds :: cmd == cmds[0] || cmd in cmds[1..];
    }
  }

  predicate AllData(cmds: seq<Command>) {
    forall cmd <- cmds :: cmd.payloadSize > 0
  }

  lemma DataFirstStep(cmds: seq<Command>)
    requires cmds != []
    ensures cmds[0].payloadSize > 0 ==> (DataFirst(cmds) <==> DataFirst(cmds[1..]))
    ensures cmds[0].payloadSize == 0 ==> (DataFirst(cmds) <==> AllEmpty(cmds[1..]))
  {
    var rest := cmds[1..];
    assert forall i | 0 < i < |cmds| :: cmds[i] == rest[i - 1];
    assert forall i | 0 <= i < |rest| :: rest[i] == cmds[i + 1];
  }

  /** The cancel race. After a cancel request the circuit may see more updates and any
      number of empty ones. No error is raised exactly when no update with data follows
      an empty one, and then the first empty one removes the subscription, once. */
  lemma {:induction false} CancelRace(c: Circuit, id: nat, cmds: seq<Command>)
    requires CancelPending(c, id)
    requires forall cmd <- cmds :: FitsSubscription(c.eventAdds[id], id, cmd)
    ensures !ProcessAll(c, cmds).outcome.Rejected? <==> DataFirst(cmds)
    ensures DataFirst(cmds) ==>
              ProcessAll(c, cmds) ==
              Accept(if AllData(cmds) then c else Unsubscribed(c, id))
  {
    assert c.Wf();
    if cmds != [] {
      var rest := cmds[1..];
      DataFirstStep(cmds);
      AllDataStep(cmds);
      assert forall cmd <- rest :: FitsSubscription(c.eventAdds[id], id, cmd);
      assert FitsSubscription(c.eventAdds[id], id, cmds[0]);
      hide AllData, DataFirst, Good, Process, Circuit.Wf;
      if cmds[0].payloadSize > 0 {
        DataWhilePending(c, id, cmds[0]);
        hide CancelPending, FitsSubscription;
        CancelRace(c, id, rest);
      } else {
        EmptyWhilePending(c, id, cmds[0]);
        UnsubscribedWf(c, id);
        hide CancelPending;
        EmptiesAfterConfirmation(Unsubscribed(c, id), id, rest);
      }
    }
  }

  lemma AllDataStep(cmds: seq<Command>)
    requires cmds != []
    ensures AllData(cmds) <==> cmds[0].payloadSize > 0 && AllData(cmds[1..])
  {
    assert forall cmd <- cmds :: cmd == cmds[0] || cmd in cmds[1..];
  }

  lemma UnsubscribedWf(c: Circuit, id: nat)
    requires c.Wf()
    ensures Unsubscribed(c, id).Wf()
  {}

  // ----- the wire cannot tell a confirmation from an empty update

  /** An EventCancelResponse travels under the command id of EventAddResponse. */
  function OnWire(cmd: Command): Command {
    if cmd.kind.EventCancelResponse? then cmd.(kind := EventAddResponse, payloadSize := 0) else cmd
  }

  /** The circuit undoes that, exactly when the confirmation names the right sid or
      would have been refused in the same way anyway. */
  lemma ConflationUndone(c: Circuit, cmd: Command)
    requires Good(c) && cmd.kind.EventCancelResponse?
    requires cmd.SubscriptionId() in c.eventCancels
    requires c.eventCancels[cmd.SubscriptionId()] == c.eventAdds[cmd.SubscriptionId()]
    ensures var add := c.eventAdds[cmd.SubscriptionId()];
            Process(c, OnWire(cmd)) == Process(c, cmd) <==>
            if cmd.KnownType() then
              || cmd.Sid() == add.Sid()
              || add.Sid() !in c.channelsSid
              || add.dataType != cmd.dataType
            else
              add.Sid() in c.channelsSid
  {
    ProcessAsExpected(c, cmd);
    ProcessAsExpected(c, Transmute(c, OnWire(cmd)));
    hide ProcessForChannel, Good;
  }

  // ----- errors other than protocol errors

  predicate TypesKnown(c: Circuit, cmd: Command)
    requires cmd.SubscriptionId() in c.eventAdds
  {
    c.eventAdds[cmd.SubscriptionId()].KnownType() && cmd.KnownType()
  }

  /** Commands that make a circuit raise something else than a protocol error. */
  ghost predicate RaisesStray(c: Circuit, cmd: Command)
    requires Good(c)
  {
    var id := cmd.SubscriptionId();
    var kind := cmd.kind;
    if kind.EventCancelRequest? || kind.EventAddResponse? then
      // the subscription outlives its channel, or a data type is unknown
      id in c.eventAdds && (c.eventAdds[id].Sid() !in c.channelsSid || !TypesKnown(c, cmd))
    else if kind.EventCancelResponse? then
      || id !in c.eventAdds
      || c.eventAdds[id].Sid() !in c.channelsSid
      || !TypesKnown(c, cmd)
      // a confirmation nobody asked for
      || (id !in c.eventCancels && c.eventAdds[id].dataType == cmd.dataType
          && c.eventAdds[id].Sid() == cmd.Sid())
    else if kind.CreateChanRequest? then
      cmd.Cid() !in c.channels && !cmd.nameParses
    else if kind.NamesSid() || kind.ClosesIo() then
      false
    else
      || cmd.Cid() !in c.channels
      || (kind.CreateChanResponse? && !cmd.KnownType())
      || ((kind.ClearChannelResponse? || kind.ServerDisconnResponse?)
          && Phase(c, c.channels[cmd.Cid()]).Failed?)
  }

  /** The errors module promises that sending or receiving a command raises protocol
      errors and nothing else. This holds of channel commands exactly when
      `RaisesStray` does not. */
  lemma StrayErrors(c: Circuit, cmd: Command)
    requires Good(c) && cmd.kind.ForChannel()
    ensures var outcome := Process(c, cmd).outcome;
            outcome.Rejected? && !outcome.error.IsProtocolError() <==> RaisesStray(c, cmd)
  {
    hide ProcessForChannel, RolesMatched, ChannelsKept, SidTables;
    var meant := Transmute(c, cmd);
    ProcessAsExpected(c, meant);
    if meant.kind.ClearChannelResponse? || meant.kind.ServerDisconnResponse? {
      RemovalNeverStrays(c, meant);
      hide Good, ExpectedByCid, ExpectedUse, ExpectedAnswer, ExpectedEvent, ExpectedCreate;
    } else {
      assert meant != cmd ==> cmd.SubscriptionId() in c.eventAdds && meant.SubscriptionId() == cmd.SubscriptionId();
      hide Good, RemoveChannel, SetPhases, SetRights, EnterSid, WithNative, OpenIo, NoteSubscription;
    }
  }

  /** Which error that is. */
  function StrayError(c: Circuit, cmd: Command): Error {
    var id, kind := cmd.SubscriptionId(), cmd.kind;
    if kind.EventCancelRequest? || kind.EventAddResponse? || kind.EventCancelResponse? then
      if id !in c.eventAdds then AttributeError
      else if kind.EventAddResponse? && cmd.payloadSize == 0 && id in c.eventCancels && !cmd.KnownType() then
        ValueError                       // the confirmation it stands for cannot be made
      else if c.eventAdds[id].Sid() !in c.channelsSid then KeyError
      else if !c.eventAdds[id].KnownType() || !cmd.KnownType() then ValueError
      else KeyError
    else if kind.CreateChanRequest? then FilterValidationError
    else if cmd.Cid() in c.channels && kind.CreateChanResponse? then ValueError
    else KeyError
  }

  lemma StrayErrorIs(c: Circuit, cmd: Command)
    requires Good(c) && cmd.kind.ForChannel() && RaisesStray(c, cmd)
    ensures Process(c, cmd).outcome == Rejected(StrayError(c, cmd))
  {
    StrayErrors(c, cmd);
    var meant := Transmute(c, cmd);
    ProcessAsExpected(c, meant);
    hide ProcessForChannel, Good, RemoveChannel, SetPhases, SetRights, EnterSid, WithNative, OpenIo, NoteSubscription;
    if cmd.kind.EventAddResponse? && meant != cmd {
      hide ExpectedByCid, ExpectedUse, ExpectedAnswer, ExpectedCreate;
    } else {
      hide Transmute;
    }
  }

  /** Commands about the circuit as a whole keep that promise. */
  lemma CircuitCommandsNeverStray(c: Circuit, cmd: Command)
    requires c.Wf() && !cmd.kind.ForChannel()
    ensures Process(c, cmd).outcome.Rejected? ==> Process(c, cmd).outcome.error.IsProtocolError()
  {
    hide CircuitTable, UpdateListed, LowerVersion;
  }

  lemma RemovalNeverStrays(c: Circuit, cmd: Command)
    requires Good(c) && (cmd.kind.ClearChannelResponse? || cmd.kind.ServerDisconnResponse?)
    ensures var outcome := ExpectedByCid(c, cmd).outcome;
            outcome.Rejected? && !outcome.error.IsProtocolError() <==> RaisesStray(c, cmd)
  {
    if cmd.Cid() in c.channels {
      ListedEntry(c, cmd.Cid());
      var ref := c.channels[cmd.Cid()];
      assert SidEntry(c, ref);
      hide Good, RolesMatched;
    }
  }

  /** A confirmation that arrives after its channel was closed is not tolerated: while the
      circuit is up, the Closed entry of the client's table is never reached. */
  lemma LateConfirmationRejected(c: Circuit, cmd: Command)
    requires Good(c) && cmd.SubscriptionId() in c.eventAdds
    requires cmd.kind.EventCancelResponse? || cmd.kind.EventAddResponse?
    requires c.eventAdds[cmd.SubscriptionId()].Sid() !in c.channelsSid
    ensures Process(c, cmd) ==
            Result(c, Rejected(if Transmute(c, cmd) != cmd && !cmd.KnownType() then ValueError else KeyError))
  {
    ProcessAsExpected(c, Transmute(c, cmd));
    hide ProcessForChannel, Good;
  }

  /** On the wire such a confirmation is an empty update. With its channel gone it passes
      exactly when its subscription is not remembered any more. */
  lemma EmptyUpdateAfterClose(c: Circuit, cmd: Command)
    requires Good(c) && cmd.kind.EventAddResponse? && cmd.payloadSize == 0
    requires var id := cmd.SubscriptionId();
             id in c.eventAdds ==> c.eventAdds[id].Sid() !in c.channelsSid
    ensures Process(c, cmd).outcome.Rejected? <==> cmd.SubscriptionId() in c.eventAdds
    ensures Process(c, cmd).circuit == c
  {
    if cmd.SubscriptionId() in c.eventAdds {
      LateConfirmationRejected(c, cmd);
    } else {
      assert cmd.SubscriptionId() !in c.eventCancels;
      AfterConfirmation(c, cmd.SubscriptionId(), cmd);
    }
    hide Process, Good;
  }

  // ----- what the creation of a channel leaves behind

  /** A creation response for a listed channel. Accepted, it makes the channel usable on
      both sides under its sid; refused, it has still overwritten the native type. */
  lemma CreationRecorded(c: Circuit, cmd: Command)
    requires Good(c) && cmd.kind.CreateChanResponse? && cmd.KnownType() && cmd.Cid() in c.channels
    ensures var r, ref := Process(c, cmd), c.channels[cmd.Cid()];
            && ref < |c.store| == |r.circuit.store|
            && r.circuit.store[ref].nativeType == Some(cmd.dataType)
            && r.circuit.store[ref].nativeCount == Some(cmd.dataCount)
            && (r.outcome.Accepted? <==> c.store[ref].phases == Pair(AwaitCreateChanResponse, SendCreateChanResponse))
            && (r.outcome.Accepted? ==>
                  && r.circuit.store[ref].phases == Pair(Connected, Connected)
                  && r.circuit.store[ref].sid == Some(cmd.Sid())
                  && cmd.Sid() in r.circuit.channelsSid && r.circuit.channelsSid[cmd.Sid()] == ref)
            && (!r.outcome.Accepted? ==>
                  && r.circuit == WithNative(c, ref, cmd)
                  && r.outcome == Rejected(GetException(c.ours, cmd.kind)))
  {
    var ref := c.channels[cmd.Cid()];
    ListedEntry(c, cmd.Cid());
    assert InLockStep(Coupled(c.store[ref].phases, c.phases));
    assert c.store[ref].phases.client.AwaitCreateChanResponse?
           <==> c.store[ref].phases == Pair(AwaitCreateChanResponse, SendCreateChanResponse);
    ProcessAsExpected(c, cmd);
    hide ProcessForChannel, Good, RolesMatched;
  }
}
