/** What a circuit reads from the header of each class of command, stated on the fields of
    the header themselves. */
module RawFields {
  import opened Protocol
  import opened States
  import opened Circuit
  import opened LockStep
  import opened Expected
  import opened Handshake
  import opened Runs
  import opened Endpoint
  import Refinement

  /** The sid is that of a channel on which the client may still send requests. */
  predicate OpenForUse(c: Circuit, sid: nat)
    requires c.Wf()
  {
    sid in c.channelsSid && c.store[c.channelsSid[sid]].phases.client.Connected?
  }

  // ----- transactions

  /** The sid is parameter1 and the ioid parameter2: an accepted request records the second
      for the channel that the first one names. */
  lemma TransactionOpened(c: Circuit, cmd: Command)
    requires Good(c) && (cmd.kind.ReadNotifyRequest? || cmd.kind.ReadRequest? || cmd.kind.WriteNotifyRequest?)
    ensures Accepts(c, cmd) <==> OpenForUse(c, cmd.parameter1)
    ensures Process(c, cmd).circuit ==
            if Accepts(c, cmd) then c.(ioids := c.ioids[cmd.parameter2 := c.channelsSid[cmd.parameter1]]) else c
  {
    assert Process(c, cmd) == ProcessForChannel(c, cmd);
    hide ProcessForChannel, Good;
    ProcessAsExpected(c, cmd);
  }

  /** The ioid is parameter2: an answer is accepted exactly when that is open, and closes
      that one. */
  lemma TransactionClosed(c: Circuit, cmd: Command)
    requires Good(c) && (cmd.kind.ReadNotifyResponse? || cmd.kind.ReadResponse? || cmd.kind.WriteNotifyResponse?)
    ensures Accepts(c, cmd) <==> cmd.parameter2 in c.ioids
    ensures Process(c, cmd).circuit == c.(ioids := c.ioids - {cmd.parameter2})
  {
    assert Process(c, cmd) == ProcessForChannel(c, cmd);
    hide ProcessForChannel, Good;
    ProcessAsExpected(c, cmd);
    assert cmd.parameter2 !in c.ioids ==> c.ioids - {cmd.parameter2} == c.ioids;
  }

  /** A write that wants no answer leaves no trace. */
  lemma WriteUnanswered(c: Circuit, cmd: Command)
    requires Good(c) && cmd.kind.WriteRequest?
    ensures Accepts(c, cmd) <==> OpenForUse(c, cmd.parameter1)
    ensures Process(c, cmd).circuit == c
  {
    assert Process(c, cmd) == ProcessForChannel(c, cmd);
    hide ProcessForChannel, Good;
    ProcessAsExpected(c, cmd);
  }

  // ----- subscriptions

  /** The sid is parameter1, the subscription id parameter2. */
  lemma SubscriptionOpened(c: Circuit, cmd: Command)
    requires Good(c) && cmd.kind.EventAddRequest?
    ensures Accepts(c, cmd) <==> OpenForUse(c, cmd.parameter1)
    ensures Process(c, cmd).circuit ==
            if Accepts(c, cmd) then c.(eventAdds := c.eventAdds[cmd.parameter2 := cmd]) else c
  {
    assert Process(c, cmd) == ProcessForChannel(c, cmd);
    hide ProcessForChannel, Good;
    ProcessAsExpected(c, cmd);
  }

  /** Every subscription is remembered as the request that carries its id in parameter2. */
  ghost predicate OwnSubscriptions(c: Circuit) {
    forall id <- c.eventAdds :: c.eventAdds[id].kind.EventAddRequest? && c.eventAdds[id].parameter2 == id
  }

  lemma RunsKeepSubscriptions(states: seq<Circuit>, actions: seq<Action>, n: nat)
    requires IsRun(states, actions) && n < |states| && states[0].eventAdds == map[]
    ensures OwnSubscriptions(states[n])
  {
    forall id | id in states[n].eventAdds
      ensures states[n].eventAdds[id].kind.EventAddRequest? && states[n].eventAdds[id].parameter2 == id
    {
      var k := LiveSubscriptionHasRequest(states, actions, n, id);
      assert Subscribes(states, actions, k, states[n].eventAdds[id]);
      hide IsRun, Process;
    }
  }

  /** A cancel names the sid and the data type of the subscription again. */
  lemma CancelRequested(c: Circuit, cmd: Command)
    requires Good(c) && OwnSubscriptions(c) && cmd.kind.EventCancelRequest?
    ensures Accepts(c, cmd) <==>
              && cmd.parameter2 in c.eventAdds && c.eventAdds[cmd.parameter2].parameter1 == cmd.parameter1
              && c.eventAdds[cmd.parameter2].dataType == cmd.dataType <= 38 && OpenForUse(c, cmd.parameter1)
    ensures Process(c, cmd).circuit ==
            if Accepts(c, cmd) then c.(eventCancels := c.eventCancels[cmd.parameter2 := c.eventAdds[cmd.parameter2]])
            else c
  {
    assert Process(c, cmd) == ProcessForChannel(c, cmd) && c.Wf();
    hide ProcessForChannel, Good, Circuit.Wf, OpenForUse;
    ProcessAsExpected(c, cmd);
    CancelExpected(c, cmd);
    hide Expect;
  }

  lemma CancelExpected(c: Circuit, cmd: Command)
    requires c.Wf() && OwnSubscriptions(c) && cmd.kind.EventCancelRequest?
    ensures var r := Expect(c, cmd);
            && (r.outcome.Accepted? <==>
                && cmd.parameter2 in c.eventAdds && c.eventAdds[cmd.parameter2].parameter1 == cmd.parameter1
                && c.eventAdds[cmd.parameter2].dataType == cmd.dataType <= 38 && OpenForUse(c, cmd.parameter1))
            && r.circuit == if r.outcome.Accepted?
                            then c.(eventCancels := c.eventCancels[cmd.parameter2 := c.eventAdds[cmd.parameter2]])
                            else c
  {
    assert cmd.parameter2 in c.eventAdds ==>
             c.eventAdds[cmd.parameter2].Sid() == c.eventAdds[cmd.parameter2].parameter1;
    hide OwnSubscriptions;
  }

  /** An update that cannot be taken for a confirmation changes nothing; it must fit the
      subscription of parameter2. */
  lemma UpdateReceived(c: Circuit, cmd: Command)
    requires Good(c) && OwnSubscriptions(c) && cmd.kind.EventAddResponse?
    requires cmd.payloadSize > 0 || cmd.parameter2 !in c.eventCancels
    ensures Accepts(c, cmd) <==>
              && cmd.parameter2 in c.eventAdds && c.eventAdds[cmd.parameter2].parameter1 in c.channelsSid
              && c.eventAdds[cmd.parameter2].dataType == cmd.dataType <= 38
              && (c.eventAdds[cmd.parameter2].dataCount == 0 || c.eventAdds[cmd.parameter2].dataCount == cmd.dataCount)
    ensures Process(c, cmd).circuit == c
  {
    assert Process(c, cmd) == ProcessForChannel(c, cmd) && c.Wf();
    hide ProcessForChannel, Good, Circuit.Wf;
    ProcessAsExpected(c, cmd);
    assert cmd.parameter2 in c.eventAdds ==>
             c.eventAdds[cmd.parameter2].Sid() == c.eventAdds[cmd.parameter2].parameter1;
    hide OwnSubscriptions;
  }

  /** While the subscription of parameter2 is being cancelled, an empty update is the
      confirmation: both entries are removed. */
  lemma ConfirmationReceived(c: Circuit, cmd: Command)
    requires CancelPending(c, cmd.parameter2) && cmd.kind.EventAddResponse? && cmd.payloadSize == 0
    requires cmd.dataType == c.eventAdds[cmd.parameter2].dataType <= 38
    ensures Accepts(c, cmd)
    ensures Process(c, cmd).circuit ==
            c.(eventAdds := c.eventAdds - {cmd.parameter2}, eventCancels := c.eventCancels - {cmd.parameter2})
  {
    EmptyWhilePending(c, cmd.parameter2, cmd);
    hide Process;
  }

  /** A confirmation under its own class. When nobody asked for it, the subscription is
      forgotten all the same, before the error is raised. */
  lemma ConfirmationProcessed(c: Circuit, cmd: Command)
    requires Good(c) && OwnSubscriptions(c) && cmd.kind.EventCancelResponse?
    ensures var id := cmd.parameter2;
            var fits := id in c.eventAdds && c.eventAdds[id].parameter1 == cmd.parameter1
                        && cmd.parameter1 in c.channelsSid && c.eventAdds[id].dataType == cmd.dataType <= 38;
            && (Accepts(c, cmd) <==> fits && id in c.eventCancels)
            && (fits && id !in c.eventCancels ==> Process(c, cmd).outcome == Rejected(KeyError))
            && Process(c, cmd).circuit ==
               if fits then c.(eventAdds := c.eventAdds - {id}, eventCancels := c.eventCancels - {id}) else c
  {
    assert Process(c, cmd) == ProcessForChannel(c, cmd) && c.Wf();
    hide ProcessForChannel, Good, Circuit.Wf;
    ProcessAsExpected(c, cmd);
    ConfirmationExpected(c, cmd);
    hide Expect;
  }

  lemma ConfirmationExpected(c: Circuit, cmd: Command)
    requires c.Wf() && OwnSubscriptions(c) && cmd.kind.EventCancelResponse?
    ensures var id, r := cmd.parameter2, Expect(c, cmd);
            var fits := id in c.eventAdds && c.eventAdds[id].parameter1 == cmd.parameter1
                        && cmd.parameter1 in c.channelsSid && c.eventAdds[id].dataType == cmd.dataType <= 38;
            && (r.outcome.Accepted? <==> fits && id in c.eventCancels)
            && (fits && id !in c.eventCancels ==> r.outcome == Rejected(KeyError))
            && r.circuit ==
               if fits then c.(eventAdds := c.eventAdds - {id}, eventCancels := c.eventCancels - {id}) else c
  {
    assert cmd.parameter2 in c.eventAdds ==>
             c.eventAdds[cmd.parameter2].Sid() == c.eventAdds[cmd.parameter2].parameter1;
    assert cmd.parameter2 !in c.eventCancels ==> c.eventCancels - {cmd.parameter2} == c.eventCancels;
    hide OwnSubscriptions;
  }

  // ----- channels

  /** The channel that the circuit lists under this cid, with its place in the list of all
      channel objects. */
  function At(c: Circuit, cid: nat): (ref: nat)
    requires c.Wf() && cid in c.channels
    ensures ref < |c.store|
  {
    c.channels[cid]
  }

  function PhaseAt(c: Circuit, cid: nat): ChannelPhase
    requires c.Wf() && cid in c.channels
  {
    c.store[c.channels[cid]].phases.client
  }

  /** `c` with one channel object replaced. */
  function Replaced(c: Circuit, ref: nat, ch: Channel): Circuit
    requires ref < |c.store|
  {
    c.(store := c.store[ref := ch])
  }

  /** The cid is parameter1. An object that was made beforehand is used, otherwise a new one
      is listed under the cid. */
  lemma CreationRequested(c: Circuit, cmd: Command)
    requires Good(c) && cmd.kind.CreateChanRequest?
    ensures Accepts(c, cmd) <==>
              if cmd.parameter1 in c.channels then PhaseAt(c, cmd.parameter1).SendCreateChanRequest? else cmd.nameParses
    ensures var asked := Pair(AwaitCreateChanResponse, SendCreateChanResponse);
            Process(c, cmd).circuit ==
            if !Accepts(c, cmd) then c
            else if cmd.parameter1 in c.channels then
              var ref := At(c, cmd.parameter1);
              Replaced(c, ref, c.store[ref].(phases := asked))
            else
              c.(store := c.store + [Channel(cmd.parameter1, asked, None, None, None, None, c.version)],
                 channels := c.channels[cmd.parameter1 := |c.store|])
  {
    assert Process(c, cmd) == ProcessForChannel(c, cmd) && c.Wf();
    hide ProcessForChannel, Good, Circuit.Wf;
    ProcessAsExpected(c, cmd);
  }

  /** The cid is parameter1, the sid parameter2, the native type and count those of the
      header. */
  lemma CreationConfirmed(c: Circuit, cmd: Command)
    requires Good(c) && cmd.kind.CreateChanResponse?
    ensures Accepts(c, cmd) <==>
              cmd.parameter1 in c.channels && PhaseAt(c, cmd.parameter1).AwaitCreateChanResponse? && cmd.dataType <= 38
    ensures Accepts(c, cmd) ==>
              var ref := At(c, cmd.parameter1);
              Process(c, cmd).circuit ==
              Replaced(c, ref, c.store[ref].(phases := Pair(Connected, Connected), sid := Some(cmd.parameter2),
                                             nativeType := Some(cmd.dataType), nativeCount := Some(cmd.dataCount),
                                             version := c.version))
                .(channelsSid := c.channelsSid[cmd.parameter2 := ref])
  {
    assert Process(c, cmd) == ProcessForChannel(c, cmd) && c.Wf();
    hide ProcessForChannel, Good, Circuit.Wf;
    ProcessAsExpected(c, cmd);
  }

  /** A command that only moves the channel of this cid from one phase to the next. */
  ghost predicate Moves(c: Circuit, cmd: Command, cid: nat, from: ChannelPhase, to: ChannelPhase)
    requires c.Wf()
  {
    && (Accepts(c, cmd) <==> cid in c.channels && PhaseAt(c, cid) == from)
    && Process(c, cmd).circuit ==
       if Accepts(c, cmd) && cid in c.channels
       then Replaced(c, At(c, cid), c.store[At(c, cid)].(phases := Pair(to, to))) else c
  }

  /** A request to clear a channel names its cid in parameter2, the failure of a creation in
      parameter1. */
  lemma ChannelMoved(c: Circuit, cmd: Command)
    requires Good(c)
    ensures cmd.kind.ClearChannelRequest? ==> Moves(c, cmd, cmd.parameter2, Connected, MustClose)
    ensures cmd.kind.CreateChFailResponse? ==> Moves(c, cmd, cmd.parameter1, AwaitCreateChanResponse, Failed)
  {
    if cmd.kind.ClearChannelRequest? || cmd.kind.CreateChFailResponse? {
      assert Process(c, cmd) == ProcessForChannel(c, cmd) && c.Wf();
      hide ProcessForChannel, Good, Circuit.Wf;
      ProcessAsExpected(c, cmd);
    }
  }

  /** The cid is parameter1, the rights are parameter2. */
  lemma RightsGranted(c: Circuit, cmd: Command)
    requires Good(c) && cmd.kind.AccessRightsResponse?
    ensures Accepts(c, cmd) <==>
              && cmd.parameter1 in c.channels
              && var phase := PhaseAt(c, cmd.parameter1);
                 phase.AwaitCreateChanResponse? || phase.Connected? || phase.MustClose?
    ensures Process(c, cmd).circuit ==
            if Accepts(c, cmd) && cmd.parameter1 in c.channels then
              var ref := At(c, cmd.parameter1);
              Replaced(c, ref, c.store[ref].(accessRights := Some(cmd.parameter2)))
            else c
  {
    assert Process(c, cmd) == ProcessForChannel(c, cmd) && c.Wf();
    hide ProcessForChannel, Good, Circuit.Wf;
    ProcessAsExpected(c, cmd);
  }

  /** The channel is gone from the tables, with its sid and its open transactions, and with
      nothing else. */
  ghost predicate Forgotten(c: Circuit, c1: Circuit, ref: nat)
    requires c.Wf() && ref < |c.store|
  {
    && c1 == c.(store := c.store[ref := c.store[ref].(phases := Pair(Closed, Closed))],
                channels := c1.channels, channelsSid := c1.channelsSid, ioids := c1.ioids)
    && c1.channels == c.channels - {c.store[ref].cid}
    && c.store[ref].sid.Some? && c1.channelsSid == c.channelsSid - {c.store[ref].sid.value}
    && (forall ioid :: ioid in c1.ioids <==> ioid in c.ioids && c.ioids[ioid] != ref)
    && (forall ioid <- c1.ioids :: c1.ioids[ioid] == c.ioids[ioid])
  }

  lemma RemovalForgets(c: Circuit, ref: nat)
    requires Good(c) && ref < |c.store| && Listed(c, ref) && IsOpen(c.store[ref])
    ensures var r := RemoveChannel(SetPhases(c, ref, Pair(Closed, Closed)), ref);
            r.outcome.Accepted? && Forgotten(c, r.circuit, ref)
  {
    Refinement.EntriesOf(c, ref);
    Refinement.RemovalForm(c, ref);
    hide Good, Listed, IsOpen;
  }

  /** A confirmed clearing names the cid in parameter2, a server that drops a channel in
      parameter1. */
  lemma ChannelForgotten(c: Circuit, cmd: Command)
    requires Good(c) && (cmd.kind.ClearChannelResponse? || cmd.kind.ServerDisconnResponse?)
    ensures var cid := if cmd.kind.ClearChannelResponse? then cmd.parameter2 else cmd.parameter1;
            && (Accepts(c, cmd) <==>
                && cid in c.channels
                && (PhaseAt(c, cid).MustClose? || (cmd.kind.ServerDisconnResponse? && PhaseAt(c, cid).Connected?)))
            && (Accepts(c, cmd) ==> Forgotten(c, Process(c, cmd).circuit, At(c, cid)))
  {
    assert Process(c, cmd) == ProcessForChannel(c, cmd) && c.Wf();
    assert Expect(c, cmd) == ExpectedByCid(c, cmd);
    var cid := if cmd.kind.ClearChannelResponse? then cmd.parameter2 else cmd.parameter1;
    assert cid == cmd.Cid();
    hide ProcessForChannel, Good, Circuit.Wf, Process, Forgotten, RemoveChannel, SetPhases, Expect, InLockStep,
         SidEntry;
    ProcessAsExpected(c, cmd);
    if cid in c.channels {
      ListedEntry(c, cid);
      if IsOpen(c.store[At(c, cid)]) {
        RemovalForgets(c, At(c, cid));
      }
    }
  }

  // ----- the circuit as a whole

  /** The priority is in the data type field, the version in the data count field. */
  lemma VersionRequested(c: Circuit, q: Command)
    requires c.Wf() && c.phases == FRESH_CIRCUIT && q.kind.VersionRequest?
    ensures Accepts(c, q) <==> c.priority.None? || c.priority.value == q.dataType
    ensures Accepts(c, q) ==>
              && Process(c, q).circuit.priority == Some(q.dataType)
              && Process(c, q).circuit.version == if q.dataCount < c.version then q.dataCount else c.version
  {
    hide Process;
    RequestProcessed(c, q);
  }

  lemma VersionAnswered(c: Circuit, r: Command)
    requires c.Wf() && c.phases == REQUESTED && r.kind.VersionResponse? && Informed(c)
    ensures Accepts(c, r)
    ensures Process(c, r).circuit.version ==
            if 0 < r.dataCount < c.version then r.dataCount else c.version
  {
    hide Process;
    ResponseProcessed(c, r);
  }
}
