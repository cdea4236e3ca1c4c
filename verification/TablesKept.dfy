/** The tables of a circuit stay exact: every step of a run with fresh ids keeps the sid
    table the index of the open channels, and keeps the others consistent with it. */
module TablesKept {
  import opened Protocol
  import opened States
  import opened Circuit
  import opened LockStep
  import opened Expected

  /** The ids that callers promise to choose fresh: a cid for a new channel object, and
      the sid in a CreateChanResponse. */
  predicate FreshIds(c: Circuit, a: Action) {
    match a
    case Create(cid) => cid !in c.channels
    case Handle(cmd) => cmd.kind.CreateChanResponse? ==> cmd.Sid() !in c.channelsSid
    case Lose => true
  }

  // ----- single changes

  lemma ChangePhases(c: Circuit, ref: nat, phases: ChannelPhases)
    requires Tables(c) && ref < |c.store|
    requires !phases.client.Closed? && !Phase(c, ref).Closed?
    requires (phases.client.Connected? || phases.client.MustClose?) == IsOpen(c.store[ref])
    ensures Tables(SetPhases(c, ref, phases))
  {
    var c1 := SetPhases(c, ref, phases);
    assert Listed(c, ref) == Listed(c1, ref);
    assert forall r | 0 <= r < |c.store| :: Listed(c1, r) == Listed(c, r);
    assert forall r | 0 <= r < |c.store| && SidEntry(c, r) && r != ref :: SidEntry(c1, r);
  }

  lemma AddChannel(c: Circuit, cid: nat)
    requires Tables(c) && cid !in c.channels
    ensures Tables(NewChannel(c, cid))
  {
    var c1 := NewChannel(c, cid);
    assert forall r | 0 <= r < |c.store| && Listed(c, r) :: Listed(c1, r);
    assert forall r | 0 <= r < |c.store| && SidEntry(c, r) :: SidEntry(c1, r);
    assert SidEntry(c1, |c.store|);
  }

  lemma ChangeRights(c: Circuit, ref: nat, rights: nat)
    requires Tables(c) && ref < |c.store|
    ensures Tables(SetRights(c, ref, rights).circuit)
  {
    var c1 := SetRights(c, ref, rights).circuit;
    assert forall r | 0 <= r < |c.store| :: Listed(c1, r) == Listed(c, r);
    assert forall r | 0 <= r < |c.store| && SidEntry(c, r) :: SidEntry(c1, r);
  }

  lemma ChangeNative(c: Circuit, ref: nat, cmd: Command)
    requires Tables(c) && ref < |c.store|
    ensures Tables(WithNative(c, ref, cmd))
  {
    var c1 := WithNative(c, ref, cmd);
    assert forall r | 0 <= r < |c.store| :: Listed(c1, r) == Listed(c, r);
    assert forall r | 0 <= r < |c.store| && SidEntry(c, r) :: SidEntry(c1, r);
  }

  lemma ConnectKeepsChannels(c: Circuit, ref: nat, sid: nat)
    requires Tables(c) && ref < |c.store| && Listed(c, ref)
    requires Phase(c, ref).AwaitCreateChanResponse? && sid !in c.channelsSid
    ensures var c1 := EnterSid(SetPhases(c, ref, Pair(Connected, Connected)), ref, sid).circuit;
            c1.Wf() && ChannelsKept(c1)
  {
    var c1 := EnterSid(SetPhases(c, ref, Pair(Connected, Connected)), ref, sid).circuit;
    assert forall r | 0 <= r < |c.store| :: Listed(c1, r) == Listed(c, r);
    assert forall r | 0 <= r < |c.store| && SidEntry(c, r) && r != ref :: SidEntry(c1, r);
    assert SidEntry(c1, ref);
    hide SidTables;
  }

  lemma ConnectKeepsSids(c: Circuit, ref: nat, sid: nat)
    requires Tables(c) && ref < |c.store| && Listed(c, ref)
    requires Phase(c, ref).AwaitCreateChanResponse? && sid !in c.channelsSid
    ensures var c1 := EnterSid(SetPhases(c, ref, Pair(Connected, Connected)), ref, sid).circuit;
            c1.Wf() && SidTables(c1)
  {
    var c1 := EnterSid(SetPhases(c, ref, Pair(Connected, Connected)), ref, sid).circuit;
    OnlyOtherChannels(c, ref);
    OtherChannelsSame(c, c1, ref);
    assert c.Wf() && c1.Wf() && SidTables(c);
    hide ChannelsKept, SidEntry, Circuit.Wf;
  }

  /** A channel that is not open occurs in neither of the two tables. */
  lemma OnlyOtherChannels(c: Circuit, ref: nat)
    requires Tables(c) && ref < |c.store| && !IsOpen(c.store[ref])
    ensures forall s <- c.channelsSid :: c.channelsSid[s] != ref
    ensures forall ioid <- c.ioids :: c.ioids[ioid] != ref
  {
    hide ChannelsKept;
  }

  lemma OtherChannelsSame(c: Circuit, c1: Circuit, ref: nat)
    requires ref < |c.store| == |c1.store| && c1.channels == c.channels && c1.store[ref].cid == c.store[ref].cid
    requires forall r | 0 <= r < |c.store| && r != ref :: c1.store[r] == c.store[r]
    ensures forall r | 0 <= r < |c.store| :: Listed(c1, r) == Listed(c, r)
  {}

  lemma Connect(c: Circuit, ref: nat, sid: nat)
    requires Tables(c) && ref < |c.store| && Listed(c, ref)
    requires Phase(c, ref).AwaitCreateChanResponse? && sid !in c.channelsSid
    ensures Tables(EnterSid(SetPhases(c, ref, Pair(Connected, Connected)), ref, sid).circuit)
  {
    ConnectKeepsChannels(c, ref, sid);
    ConnectKeepsSids(c, ref, sid);
    hide ChannelsKept, SidTables, Circuit.Wf;
  }

  lemma RemoveKeepsChannels(c: Circuit, ref: nat)
    requires Tables(c) && ref < |c.store| && Listed(c, ref) && IsOpen(c.store[ref])
    ensures var r := RemoveChannel(SetPhases(c, ref, Pair(Closed, Closed)), ref);
            r.outcome.Accepted? && r.circuit.Wf() && ChannelsKept(r.circuit)
  {
    assert SidEntry(c, ref);
    var c1 := RemoveChannel(SetPhases(c, ref, Pair(Closed, Closed)), ref).circuit;
    assert forall cid <- c1.channels :: c1.channels[cid] != ref;
    assert forall r | 0 <= r < |c.store| && r != ref :: Listed(c1, r) == Listed(c, r);
    forall cid <- c1.channels
      ensures SidEntry(c1, c1.channels[cid])
    {
      assert SidEntry(c, c1.channels[cid]);
    }
  }

  /** What is left after a removal, entry by entry. */
  ghost predicate Removed(c: Circuit, c1: Circuit, ref: nat)
    requires ref < |c.store|
  {
    && |c1.store| == |c.store| && (forall r | 0 <= r < |c.store| && r != ref :: c1.store[r] == c.store[r])
    && c1.channels == c.channels - {c.store[ref].cid}
    && (forall s <- c1.channelsSid :: s in c.channelsSid && c1.channelsSid[s] == c.channelsSid[s] != ref)
    && (forall ioid <- c1.ioids :: ioid in c.ioids && c1.ioids[ioid] == c.ioids[ioid] != ref)
  }

  lemma RemovalForm(c: Circuit, ref: nat)
    requires Tables(c) && ref < |c.store| && Listed(c, ref) && IsOpen(c.store[ref])
    ensures var r := RemoveChannel(SetPhases(c, ref, Pair(Closed, Closed)), ref);
            r.outcome.Accepted? && Removed(c, r.circuit, ref)
  {
    assert SidEntry(c, ref) && c.Wf();
    assert forall s <- c.channelsSid :: c.channelsSid[s] == ref ==> c.store[ref].sid == Some(s);
    hide ChannelsKept, SidTables, Circuit.Wf, SidEntry, Listed;
  }

  lemma RemoveKeepsSids(c: Circuit, ref: nat)
    requires Tables(c) && ref < |c.store| && Listed(c, ref) && IsOpen(c.store[ref])
    ensures var r := RemoveChannel(SetPhases(c, ref, Pair(Closed, Closed)), ref);
            r.outcome.Accepted? && r.circuit.Wf() && SidTables(r.circuit)
  {
    RemovalForm(c, ref);
    var c1 := RemoveChannel(SetPhases(c, ref, Pair(Closed, Closed)), ref).circuit;
    hide RemoveChannel, SetPhases, ChannelsKept, SidEntry;
    RemovedSids(c, c1, ref);
  }

  lemma RemovedSids(c: Circuit, c1: Circuit, ref: nat)
    requires c.Wf() && SidTables(c) && ref < |c.store| && Listed(c, ref) && Removed(c, c1, ref)
    ensures c1.Wf() && SidTables(c1)
  {
    assert forall r | 0 <= r < |c.store| && r != ref && Listed(c, r) :: Listed(c1, r);
  }

  lemma Remove(c: Circuit, ref: nat)
    requires Tables(c) && ref < |c.store| && Listed(c, ref) && IsOpen(c.store[ref])
    ensures RemoveChannel(SetPhases(c, ref, Pair(Closed, Closed)), ref).outcome.Accepted?
    ensures Tables(RemoveChannel(SetPhases(c, ref, Pair(Closed, Closed)), ref).circuit)
  {
    RemoveKeepsChannels(c, ref);
    RemoveKeepsSids(c, ref);
    hide ChannelsKept, SidTables, Circuit.Wf;
  }

  lemma OpenTransaction(c: Circuit, ref: nat, ioid: nat)
    requires Tables(c) && ref < |c.store| && Listed(c, ref) && IsOpen(c.store[ref])
    ensures Tables(OpenIo(c, ref, ioid).circuit)
  {
    var c1 := OpenIo(c, ref, ioid).circuit;
    assert forall r | 0 <= r < |c.store| :: Listed(c1, r) == Listed(c, r);
    assert forall r | 0 <= r < |c.store| && SidEntry(c, r) :: SidEntry(c1, r);
  }

  lemma CloseTransaction(c: Circuit, ioid: nat)
    requires Tables(c)
    ensures Tables(c.(ioids := c.ioids - {ioid}))
  {
    var c1 := c.(ioids := c.ioids - {ioid});
    assert forall r | 0 <= r < |c.store| :: Listed(c1, r) == Listed(c, r);
    assert forall r | 0 <= r < |c.store| && SidEntry(c, r) :: SidEntry(c1, r);
  }

  lemma ChangeSubscriptions(c: Circuit, adds: map<nat, Command>, cancels: map<nat, Command>)
    requires Tables(c) && cancels.Keys <= adds.Keys
    ensures Tables(c.(eventAdds := adds, eventCancels := cancels))
  {
    var c1 := c.(eventAdds := adds, eventCancels := cancels);
    assert forall r | 0 <= r < |c.store| :: Listed(c1, r) == Listed(c, r);
    assert forall r | 0 <= r < |c.store| && SidEntry(c, r) :: SidEntry(c1, r);
  }

  // ----- whole commands

  lemma UseKeepsTables(c: Circuit, cmd: Command)
    requires Tables(c) && cmd.kind.NamesSid()
    ensures Tables(ExpectedUse(c, cmd).circuit)
  {
    if cmd.Sid() in c.channelsSid {
      var ref := c.channelsSid[cmd.Sid()];
      OpenTransaction(c, ref, cmd.Ioid());
      ChangeSubscriptions(c, c.eventAdds[cmd.SubscriptionId() := cmd], c.eventCancels);
      hide Tables, OpenIo;
    }
  }

  lemma EventKeepsTables(c: Circuit, cmd: Command)
    requires Tables(c)
    ensures Tables(ExpectedEvent(c, cmd).circuit)
  {
    var id := cmd.SubscriptionId();
    if id in c.eventAdds {
      ChangeSubscriptions(c, c.eventAdds, c.eventCancels[id := c.eventAdds[id]]);
      ChangeSubscriptions(c, c.eventAdds - {id}, c.eventCancels - {id});
      if id !in c.eventCancels {
        ChangeSubscriptions(c, c.eventAdds - {id}, c.eventCancels);
      }
      hide Tables;
    }
  }

  lemma CreateKeepsTables(c: Circuit, cmd: Command)
    requires Tables(c)
    ensures Tables(ExpectedCreate(c, cmd).circuit)
  {
    var asked := Pair(AwaitCreateChanResponse, SendCreateChanResponse);
    if cmd.Cid() in c.channels {
      var ref := c.channels[cmd.Cid()];
      if Phase(c, ref).SendCreateChanRequest? {
        ChangePhases(c, ref, asked);
      }
    } else {
      AddChannel(c, cmd.Cid());
      ChangePhases(NewChannel(c, cmd.Cid()), |c.store|, asked);
    }
  }

  lemma AwaitingKeepsTables(c: Circuit, ref: nat, cmd: Command)
    requires Tables(c) && FreshIds(c, Handle(cmd))
    requires cmd.Cid() in c.channels && ref == c.channels[cmd.Cid()] && Phase(c, ref).AwaitCreateChanResponse?
    ensures Tables(SetPhases(c, ref, Pair(Failed, Failed)))
    ensures cmd.kind.CreateChanResponse? ==>
              Tables(EnterSid(SetPhases(WithNative(c, ref, cmd), ref, Pair(Connected, Connected)),
                              ref, cmd.Sid()).circuit)
  {
    ChangePhases(c, ref, Pair(Failed, Failed));
    ChangeNative(c, ref, cmd);
    assert Listed(WithNative(c, ref, cmd), ref);
    hide Tables, EnterSid;
    if cmd.kind.CreateChanResponse? {
      Connect(WithNative(c, ref, cmd), ref, cmd.Sid());
    }
  }

  lemma OpenKeepsTables(c: Circuit, ref: nat, cmd: Command)
    requires Tables(c)
    requires cmd.Cid() in c.channels && ref == c.channels[cmd.Cid()] && IsOpen(c.store[ref])
    ensures Tables(SetPhases(c, ref, Pair(MustClose, MustClose)))
    ensures Tables(RemoveChannel(SetPhases(c, ref, Pair(Closed, Closed)), ref).circuit)
  {
    ChangePhases(c, ref, Pair(MustClose, MustClose));
    Remove(c, ref);
  }

  lemma ConnectingKeepsTables(c: Circuit, ref: nat, cmd: Command)
    requires Tables(c) && FreshIds(c, Handle(cmd)) && cmd.kind.CreateChanResponse?
    requires cmd.Cid() in c.channels && ref == c.channels[cmd.Cid()]
    ensures Tables(ExpectedConnect(c, ref, cmd).circuit)
  {
    assert c.Wf();
    hide Tables, SetPhases, WithNative, EnterSid, Circuit.Wf, FreshIds;
    if Phase(c, ref).AwaitCreateChanResponse? {
      AwaitingKeepsTables(c, ref, cmd);
    } else {
      ChangeNative(c, ref, cmd);
    }
  }

  lemma RemovingKeepsTables(c: Circuit, ref: nat, cmd: Command)
    requires Tables(c) && cmd.Cid() in c.channels && ref == c.channels[cmd.Cid()]
    ensures Tables(ExpectedRemoval(c, ref, cmd).circuit)
  {
    assert c.Wf();
    hide Tables, SetPhases, RemoveChannel, Circuit.Wf;
    if IsOpen(c.store[ref]) {
      OpenKeepsTables(c, ref, cmd);
    }
  }

  lemma MovingKeepsTables(c: Circuit, ref: nat, cmd: Command)
    requires Tables(c) && cmd.Cid() in c.channels && ref == c.channels[cmd.Cid()]
    ensures Tables(ExpectedMove(c, ref, cmd, AwaitCreateChanResponse, Failed).circuit)
    ensures Tables(ExpectedMove(c, ref, cmd, Connected, MustClose).circuit)
  {
    if Phase(c, ref).AwaitCreateChanResponse? {
      ChangePhases(c, ref, Pair(Failed, Failed));
    } else if Phase(c, ref).Connected? {
      ChangePhases(c, ref, Pair(MustClose, MustClose));
    }
    hide Tables, SetPhases;
  }

  lemma ByCidKeepsTables(c: Circuit, cmd: Command)
    requires Tables(c) && FreshIds(c, Handle(cmd))
    ensures Tables(ExpectedByCid(c, cmd).circuit)
  {
    assert c.Wf();
    hide Tables, Circuit.Wf, FreshIds, ExpectedConnect, ExpectedMove, ExpectedRemoval;
    if cmd.Cid() in c.channels {
      var ref := c.channels[cmd.Cid()];
      if cmd.kind.CreateChanResponse? {
        ConnectingKeepsTables(c, ref, cmd);
      } else if cmd.kind.AccessRightsResponse? {
        ChangeRights(c, ref, cmd.parameter2);
      } else {
        MovingKeepsTables(c, ref, cmd);
        RemovingKeepsTables(c, ref, cmd);
      }
    }
  }

  lemma ExpectKeepsTables(c: Circuit, cmd: Command)
    requires Tables(c) && FreshIds(c, Handle(cmd))
    ensures Tables(Expect(c, cmd).circuit)
  {
    hide Tables, ExpectedUse, ExpectedEvent, ExpectedCreate, ExpectedByCid, FreshIds;
    if cmd.kind.NamesSid() {
      UseKeepsTables(c, cmd);
    } else if cmd.kind.ClosesIo() {
      CloseTransaction(c, cmd.Ioid());
    } else {
      EventKeepsTables(c, cmd);
      CreateKeepsTables(c, cmd);
      ByCidKeepsTables(c, cmd);
    }
  }

  lemma RenegotiatedTables(c: Circuit, after: Circuit)
    requires Tables(c) && Renegotiated(c, after)
    ensures Tables(after)
  {
    assert forall r | 0 <= r < |c.store| :: Listed(after, r) == Listed(c, r);
    assert forall r | 0 <= r < |c.store| && SidEntry(c, r) :: SidEntry(after, r);
    assert forall cid <- c.channels :: c.channels[cid] in c.channels.Values;
  }

  lemma CircuitKeepsTables(c: Circuit, cmd: Command)
    requires Good(c)
    ensures Tables(ProcessForCircuit(c, cmd).circuit)
  {
    ProcessForCircuitEffect(c, cmd);
    var r := ProcessForCircuit(c, cmd);
    hide ProcessForCircuit, Negotiate;
    if r.circuit != c {
      var p :| r.circuit == Negotiate(c.(phases := p), cmd).circuit;
      PhasesOutsideTables(c, p);
      NegotiateKeeps(c.(phases := p), cmd);
      RenegotiatedTables(c.(phases := p), r.circuit);
    }
  }

  lemma PhasesOutsideTables(c: Circuit, p: CircuitPhases)
    requires Tables(c)
    ensures Tables(c.(phases := p))
  {
    var c1 := c.(phases := p);
    assert forall r | 0 <= r < |c.store| :: Listed(c1, r) == Listed(c, r);
    assert forall r | 0 <= r < |c.store| && SidEntry(c, r) :: SidEntry(c1, r);
  }

  /** Sending or receiving any command with fresh ids keeps every table exact, whether
      the command is accepted or rejected. */
  lemma ProcessKeepsGood(c: Circuit, cmd: Command)
    requires Good(c) && FreshIds(c, Handle(cmd))
    ensures Good(Process(c, cmd).circuit)
  {
    var meant := Transmute(c, cmd);
    ExecKeepsLockStep(c, Handle(cmd));
    hide ProcessForChannel, ProcessForCircuit, Expect, RolesMatched, Tables;
    if meant.kind.ForChannel() {
      ProcessForChannelLockStep(c, meant);
      ProcessAsExpected(c, meant);
      ExpectKeepsTables(c, meant);
    } else {
      ProcessForCircuitLockStep(c, meant);
      CircuitKeepsTables(c, meant);
    }
  }

  /** In every state of every run with fresh ids that has not lost its connection: the
      sid table is the index of the open channels, the other tables agree with it. */
  lemma {:induction false} RunsKeepTables(states: seq<Circuit>, actions: seq<Action>, n: nat)
    requires IsRun(states, actions) && n < |states|
    requires Good(states[0])
    requires forall i | 0 <= i < n :: !actions[i].Lose? && FreshIds(states[i], actions[i])
    ensures Good(states[n])
    ensures states[n].version <= states[0].version
  {
    if n > 0 {
      RunsKeepTables(states, actions, n - 1);
      GoodStep(states[n - 1], actions[n - 1]);
    }
  }

  lemma GoodStep(c: Circuit, a: Action)
    requires Good(c) && !a.Lose? && FreshIds(c, a)
    ensures Good(Exec(c, a).circuit)
    ensures Exec(c, a).circuit.version <= c.version
  {
    match a {
      case Create(cid) =>
        AddChannel(c, cid);
        ExecKeepsLockStep(c, a);
      case Handle(cmd) =>
        ProcessKeepsGood(c, cmd);
        VersionOnlyDecreases(c, cmd);
    }
  }

  lemma VersionOnlyDecreases(c: Circuit, cmd: Command)
    requires Good(c)
    ensures Process(c, cmd).circuit.version <= c.version
  {
    var meant := Transmute(c, cmd);
    assert c.Wf() && MatchedCircuit(c.phases);
    hide ProcessForChannel, ProcessForCircuit, Good;
    if meant.kind.ForChannel() {
      ProcessAsExpected(c, meant);
      hide Expect;
      ExpectKeepsVersion(c, meant);
    } else {
      CircuitLowersVersion(c, meant);
    }
  }

  lemma CircuitLowersVersion(c: Circuit, cmd: Command)
    requires c.Wf() && MatchedCircuit(c.phases)
    ensures ProcessForCircuit(c, cmd).circuit.version <= c.version
  {
    hide ProcessForCircuit, Negotiate;
    ProcessForCircuitEffect(c, cmd);
    var r := ProcessForCircuit(c, cmd);
    if r.circuit != c {
      var p :| r.circuit == Negotiate(c.(phases := p), cmd).circuit;
      NegotiateKeeps(c.(phases := p), cmd);
    }
  }

  lemma ExpectKeepsVersion(c: Circuit, cmd: Command)
    requires c.Wf()
    ensures Expect(c, cmd).circuit.version == c.version
  {}

  /** What the invariant says about the sid table, in both directions. */
  lemma SidTableIsIndex(c: Circuit, sid: nat, ref: nat)
    requires Good(c) && ref < |c.store|
    ensures sid in c.channelsSid && c.channelsSid[sid] == ref
            <==> IsOpen(c.store[ref]) && c.store[ref].sid == Some(sid)
  {
    if IsOpen(c.store[ref]) {
      assert Listed(c, ref);
      assert SidEntry(c, ref);
    }
  }

  lemma InitialGood(ours: Role, priority: Option<nat>, version: nat)
    ensures Good(Initial(ours, priority, version))
  {}

  // ----- losing the connection

  /** With fresh ids every channel that is not closed is listed, so that the loss of the
      connection closes all of them. */
  lemma LossClosesAll(c: Circuit)
    requires Good(c)
    ensures forall i | 0 <= i < |c.store| :: Disconnect(c).store[i].phases.client.Closed?
  {
    forall i | 0 <= i < |c.store|
      ensures Disconnect(c).store[i].phases.client.Closed?
    {
      DisconnectClosesExactly(c, i);
      assert Listed(c, i) || c.store[i].phases.client.Closed?;
    }
  }

  /** Over runs: with fresh ids up to the loss, every channel that exists when the
      connection is lost is closed for ever after, and the circuit stays down, whatever
      commands and new channels follow. */
  lemma ClosedEverAfter(states: seq<Circuit>, actions: seq<Action>, m: nat, n: nat)
    requires IsRun(states, actions) && m < n < |states| && Good(states[0])
    requires forall i | 0 <= i < m :: !actions[i].Lose? && FreshIds(states[i], actions[i])
    requires actions[m].Lose?
    ensures states[n].phases == DOWN && |states[m].store| <= |states[n].store|
    ensures forall i | 0 <= i < |states[m].store| :: states[n].store[i].phases.client.Closed?
    ensures forall i | 0 <= i < |states[n].store| :: !states[n].store[i].phases.client.Connected?
  {
    RunsKeepTables(states, actions, m);
    LossClosesAll(states[m]);
    assert states[m + 1] == Disconnect(states[m]);
    hide Good, Exec, FreshIds;
    DisconnectIsFinal(states, actions, m + 1, n);
  }
}
