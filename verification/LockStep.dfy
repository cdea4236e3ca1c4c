/** Runs of one circuit, and what every step of a run keeps: references stay valid, the
    two roles stay in lock step, and a lost connection stays lost. */
module LockStep {
  import opened Protocol
  import opened States
  import opened Circuit

  // ----- runs

  datatype Action =
    | Create(cid: nat)          // a channel object is constructed
    | Handle(cmd: Command)      // a command is sent or received
    | Lose                      // the connection is lost

  function Exec(c: Circuit, a: Action): Result
    requires c.Wf()
  {
    match a
    case Create(cid) => Result(NewChannel(c, cid), Accepted)
    case Handle(cmd) => Process(c, cmd)
    case Lose => Result(Disconnect(c), Accepted)
  }

  /** `states` are the states passed through when `actions` happen one by one. */
  ghost predicate IsRun(states: seq<Circuit>, actions: seq<Action>) {
    && |states| == |actions| + 1
    && (forall i | 0 <= i < |states| :: states[i].Wf())
    && (forall i | 0 <= i < |actions| :: states[i + 1] == Exec(states[i], actions[i]).circuit)
  }

  lemma IdentifyKeeps(c: Circuit, cmd: Command)
    requires c.Wf()
    ensures var t := Identify(c, cmd);
            t.Found? ==>
              && t.circuit.Wf()
              && t.ref < |t.circuit.store|
              && t.circuit.phases == c.phases
              && t.circuit.ours == c.ours
              && (t.circuit.store == c.store || t.circuit == NewChannel(c, cmd.Cid()))
  {}

  lemma StepChannelKeeps(c: Circuit, ref: nat, cmd: Command)
    requires c.Wf() && ref < |c.store|
    ensures var c1 := StepChannel(c, ref, cmd).circuit;
            var stepped := StepBothRoles(Coupled(c.store[ref].phases, c.phases), c.ours, cmd.kind);
            && c1.Wf()
            && |c1.store| == |c.store|
            && (forall i | 0 <= i < |c.store| && i != ref :: c1.store[i] == c.store[i])
            && (c1 == c || (c1.store[ref].phases == stepped.state.channel && c1.phases == stepped.state.circuit))
  {
    hide StepBothRoles;
  }

  /** What every effect leaves alone. */
  ghost predicate SamePhases(before: Circuit, after: Circuit) {
    && |after.store| == |before.store|
    && after.phases == before.phases
    && forall i | 0 <= i < |before.store| :: after.store[i].phases == before.store[i].phases
  }

  ghost predicate KeepsShape(c: Circuit, r: Result) {
    r.circuit.Wf() && SamePhases(c, r.circuit)
  }

  lemma ChannelEffectsKeep(c: Circuit, ref: nat, n: nat)
    requires c.Wf() && ref < |c.store|
    ensures KeepsShape(c, SetRights(c, ref, n))
    ensures KeepsShape(c, EnterSid(c, ref, n))
    ensures KeepsShape(c, OpenIo(c, ref, n))
  {}

  lemma RemovalKeeps(c: Circuit, ref: nat)
    requires c.Wf() && ref < |c.store|
    ensures KeepsShape(c, RemoveChannel(c, ref))
  {}

  lemma SubscriptionEffectsKeep(c: Circuit, cmd: Command)
    requires c.Wf()
    ensures KeepsShape(c, NoteSubscription(c, cmd))
    ensures KeepsShape(c, NoteCancel(c, cmd.SubscriptionId()))
    ensures KeepsShape(c, ForgetSubscription(c, cmd.SubscriptionId()))
    ensures KeepsShape(c, Accept(c))
  {}

  lemma EffectsKeepShape(c: Circuit, ref: nat, cmd: Command)
    requires c.Wf() && ref < |c.store|
    ensures KeepsShape(c, Effects(c, ref, cmd))
  {
    hide SetRights, EnterSid, OpenIo, RemoveChannel, NoteSubscription, NoteCancel, ForgetSubscription, Accept,
         KeepsShape, Circuit.Wf;
    ChannelEffectsKeep(c, ref, cmd.parameter2);
    RemovalKeeps(c, ref);
    SubscriptionEffectsKeep(c, cmd);
  }

  lemma EffectsKeep(c: Circuit, ref: nat, cmd: Command)
    requires c.Wf() && ref < |c.store|
    ensures var c1 := Effects(c, ref, cmd).circuit; c1.Wf() && SamePhases(c, c1)
  {
    EffectsKeepShape(c, ref, cmd);
    hide Effects, SamePhases, Circuit.Wf;
  }

  lemma ProcessForChannelWf(c: Circuit, cmd: Command)
    requires c.Wf()
    ensures ProcessForChannel(c, cmd).circuit.Wf()
    ensures |c.store| <= |ProcessForChannel(c, cmd).circuit.store|
  {
    IdentifyKeeps(c, cmd);
    hide Identify, StepChannel, Effects, SubscriptionError;
    match Identify(c, cmd) {
      case Found(c1, ref) =>
        StepChannelKeeps(c1, ref, cmd);
        EffectsKeep(StepChannel(c1, ref, cmd).circuit, ref, cmd);
      case _ =>
    }
  }

  lemma StepCircuitRoleWf(c: Circuit, role: Role, kind: Kind)
    requires c.Wf()
    ensures var c1 := StepCircuitRole(c, role, kind).circuit;
            c1.Wf() && |c1.store| == |c.store|
  {
    hide CircuitTable, UpdatedChannel;
  }

  /** `after` differs from `before` at most by its priority and by a version that was
      lowered together with that of every listed channel. */
  ghost predicate Renegotiated(before: Circuit, after: Circuit) {
    && after.Wf()
    && after == before.(priority := after.priority, version := after.version, store := after.store)
    && after.version <= before.version
    && |after.store| == |before.store|
    && ((after.store == before.store && after.version == before.version)
        || forall i | 0 <= i < |before.store| ::
             after.store[i] == before.store[i].(version :=
               if i in before.channels.Values then after.version else before.store[i].version))
  }

  lemma LowerVersionKeeps(c: Circuit, priority: Option<nat>, offered: nat)
    requires c.Wf()
    ensures Renegotiated(c, LowerVersion(c.(priority := priority), offered))
  {}

  lemma NegotiateKeeps(c: Circuit, cmd: Command)
    requires c.Wf()
    ensures Renegotiated(c, Negotiate(c, cmd).circuit)
  {
    assert Renegotiated(c, c);
    LowerVersionKeeps(c, Some(cmd.Priority()), cmd.Version());
    LowerVersionKeeps(c, c.priority, cmd.Version());
    assert c.(priority := c.priority) == c;
    hide LowerVersion, Circuit.Wf, Renegotiated;
  }

  lemma ProcessForCircuitWf(c: Circuit, cmd: Command)
    requires c.Wf()
    ensures ProcessForCircuit(c, cmd).circuit.Wf()
    ensures |c.store| == |ProcessForCircuit(c, cmd).circuit.store|
  {
    StepCircuitRoleWf(c, c.ours, cmd.kind);
    hide StepCircuitRole, Negotiate;
    var first := StepCircuitRole(c, c.ours, cmd.kind).circuit;
    StepCircuitRoleWf(first, c.ours.Other(), cmd.kind);
    NegotiateKeeps(StepCircuitRole(first, c.ours.Other(), cmd.kind).circuit, cmd);
  }

  /** No step, accepted or rejected, leaves a dangling reference. */
  lemma ExecKeepsWf(c: Circuit, a: Action)
    requires c.Wf()
    ensures Exec(c, a).circuit.Wf()
    ensures |c.store| <= |Exec(c, a).circuit.store|
  {
    hide ProcessForChannel, ProcessForCircuit;
    if a.Handle? {
      var meant := Transmute(c, a.cmd);
      ProcessForChannelWf(c, meant);
      ProcessForCircuitWf(c, meant);
    }
  }

  // ----- lock step of the two roles

  predicate MatchedCircuit(p: CircuitPhases) {
    || p == FRESH_CIRCUIT
    || p == Pair(AwaitVersionResponse, SendVersionResponse)
    || p == Pair(CircuitConnected, CircuitConnected)
    || p == DOWN
  }

  predicate MatchedChannel(p: ChannelPhases) {
    || p == FRESH_CHANNEL
    || p == Pair(AwaitCreateChanResponse, SendCreateChanResponse)
    || p == Pair(Connected, Connected)
    || p == Pair(MustClose, MustClose)
    || p == Pair(Closed, Closed)
    || p == Pair(Failed, Failed)
    || p == Pair(Closed, Idle)
  }

  predicate InLockStep(s: Coupled) {
    && MatchedCircuit(s.circuit)
    && MatchedChannel(s.channel)
    && (s.channel == Pair(Closed, Idle) ==> s.circuit == DOWN)
  }

  ghost predicate RolesMatched(c: Circuit) {
    && MatchedCircuit(c.phases)
    && forall i | 0 <= i < |c.store| :: InLockStep(Coupled(c.store[i].phases, c.phases))
  }

  /** While the circuit is up, the state-triggered update changes nothing. */
  lemma UpdateIdleWhileUp(s: Coupled)
    requires !s.circuit.client.Disconnected? && !s.circuit.server.Disconnected?
    ensures Update(s) == s
  {}

  /** At any time the write-back leaves the circuit's phases as they are. */
  lemma UpdateNeverWritesCircuit(s: Coupled)
    ensures Update(s).circuit == s.circuit
  {}

  lemma StepRoleUp(s: Coupled, role: Role, kind: Kind)
    requires !s.circuit.client.Disconnected? && !s.circuit.server.Disconnected?
    ensures StepRole(s, role, kind) ==
            (match ChannelTable(role, s.channel.Get(role), kind)
             case None => None
             case Some(phase) => Some(Coupled(s.channel.Set(role, phase), s.circuit)))
  {
    hide StateTriggered, ChannelTable, Update;
    match ChannelTable(role, s.channel.Get(role), kind) {
      case None =>
      case Some(phase) => UpdateIdleWhileUp(s.(channel := s.channel.Set(role, phase)));
    }
  }

  lemma SharedEntries(phase: ChannelPhase, kind: Kind)
    requires phase.Connected? || phase.MustClose? || phase.Failed?
    ensures ChannelTable(Client, phase, kind) == ChannelTable(Server, phase, kind)
    ensures match ChannelTable(Client, phase, kind)
            case None => true
            case Some(next) => MatchedChannel(Pair(next, next))
  {}

  lemma OpeningEntries(kind: Kind)
    ensures ChannelTable(Server, Idle, kind) == When(kind.CreateChanRequest?, SendCreateChanResponse)
    ensures ChannelTable(Client, SendCreateChanRequest, kind) ==
            if kind.CreateChanRequest? then Some(AwaitCreateChanResponse)
            else When(kind.ErrorResponse?, SendCreateChanRequest)
    ensures ChannelTable(Client, AwaitCreateChanResponse, kind) == AnswerCreation(kind, AwaitCreateChanResponse)
    ensures ChannelTable(Server, SendCreateChanResponse, kind) == AnswerCreation(kind, SendCreateChanResponse)
  {}

  /** How the tables of the two roles fit together on matched phases: where only one of
      them has an entry, that entry stays in its phase. */
  lemma ChannelTableMatched(p: ChannelPhases, role: Role, kind: Kind)
    requires MatchedChannel(p) && p != Pair(Closed, Idle)
    ensures var next := ChannelTable(role, p.Get(role), kind);
            next.Some? ==>
              var other := ChannelTable(role.Other(), p.Get(role.Other()), kind);
              if other.Some? then
                var after := p.Set(role, next.value).Set(role.Other(), other.value);
                MatchedChannel(after) && after != Pair(Closed, Idle)
              else
                p.Set(role, next.value) == p
  {
    if p.client.Connected? || p.client.MustClose? || p.client.Failed? {
      SharedEntries(p.client, kind);
      hide ChannelTable;
    } else if !p.client.Closed? {
      OpeningEntries(kind);
      hide ChannelTable;
    } else {
      ClosedEntries(kind);
      hide ChannelTable;
    }
  }

  lemma ClosedEntries(kind: Kind)
    ensures ChannelTable(Client, Closed, kind) == When(kind.EventCancelResponse?, Closed)
    ensures ChannelTable(Server, Closed, kind) == None
  {}

  lemma StepBothRolesUp(s: Coupled, ours: Role, kind: Kind)
    requires InLockStep(s) && s.circuit != DOWN
    ensures InLockStep(StepBothRoles(s, ours, kind).state)
    ensures StepBothRoles(s, ours, kind).state.circuit == s.circuit
  {
    StepRoleUp(s, ours, kind);
    ChannelTableMatched(s.channel, ours, kind);
    hide StepRole, ChannelTable;
    match StepRole(s, ours, kind) {
      case None =>
      case Some(s1) => StepRoleUp(s1, ours.Other(), kind);
    }
  }

  /** Once the circuit is down, an update closes whatever has an entry in the table. */
  lemma UpdateWhileDown(p: ChannelPhases)
    ensures Update(Coupled(p, DOWN)) ==
            Coupled(Pair(if p.client.Idle? || p.client.SendCreateChanResponse? then p.client else Closed,
                         if p.server.Idle? || p.server.SendCreateChanRequest? || p.server.AwaitCreateChanResponse?
                         then p.server else Closed),
                    DOWN)
  {}

  lemma TableKeepsToItsRole(role: Role, phase: ChannelPhase, kind: Kind)
    ensures var next := ChannelTable(role, phase, kind);
            next.Some? ==>
              if role.Client? then !next.value.Idle? && !next.value.SendCreateChanResponse?
              else !next.value.Idle? && !next.value.SendCreateChanRequest? && !next.value.AwaitCreateChanResponse?
  {}

  lemma StepRoleDown(s: Coupled, role: Role, kind: Kind)
    requires InLockStep(s) && s.circuit == DOWN
    ensures match StepRole(s, role, kind)
            case None => true
            case Some(s1) => InLockStep(s1) && s1.circuit == DOWN
  {
    TableKeepsToItsRole(role, s.channel.Get(role), kind);
    hide ChannelTable, Update;
    match ChannelTable(role, s.channel.Get(role), kind) {
      case None =>
      case Some(phase) => UpdateWhileDown(s.channel.Set(role, phase));
    }
  }

  lemma StepBothRolesDownMatched(s: Coupled, ours: Role, kind: Kind)
    requires InLockStep(s) && s.circuit == DOWN
    ensures InLockStep(StepBothRoles(s, ours, kind).state)
    ensures StepBothRoles(s, ours, kind).state.circuit == DOWN
  {
    StepRoleDown(s, ours, kind);
    hide StepRole, MatchedChannel;
    match StepRole(s, ours, kind) {
      case None =>
      case Some(s1) => StepRoleDown(s1, ours.Other(), kind);
    }
  }

  /** Stepping the roles one after the other keeps them matched even when the second
      step is refused after the first was written. */
  lemma StepBothRolesInLockStep(s: Coupled, ours: Role, kind: Kind)
    requires InLockStep(s)
    ensures InLockStep(StepBothRoles(s, ours, kind).state)
    ensures StepBothRoles(s, ours, kind).state.circuit == s.circuit
  {
    hide StepBothRoles;
    if s.circuit == DOWN {
      StepBothRolesDownMatched(s, ours, kind);
    } else {
      StepBothRolesUp(s, ours, kind);
    }
  }

  lemma UpdateListedInLockStep(c: Circuit)
    requires MatchedCircuit(c.phases)
    requires forall i | 0 <= i < |c.store| :: MatchedChannel(c.store[i].phases)
    requires forall i | 0 <= i < |c.store| && c.store[i].phases == Pair(Closed, Idle) :: c.phases == DOWN
    ensures RolesMatched(UpdateListed(c))
  {
    var after := UpdateListed(c);
    forall i | 0 <= i < |c.store|
      ensures InLockStep(Coupled(after.store[i].phases, after.phases))
    {
      assert InLockStep(Update(Coupled(c.store[i].phases, c.phases)));
    }
  }

  lemma ProcessForChannelLockStep(c: Circuit, cmd: Command)
    requires c.Wf() && RolesMatched(c)
    ensures RolesMatched(ProcessForChannel(c, cmd).circuit)
    ensures ProcessForChannel(c, cmd).circuit.phases == c.phases
  {
    IdentifyKeeps(c, cmd);
    hide Identify, StepChannel, Effects, SubscriptionError, StepBothRoles, MatchedChannel;
    match Identify(c, cmd) {
      case Found(c1, ref) =>
        assert RolesMatched(c1) by { FreshChannelMatched(c.phases); }
        StepBothRolesInLockStep(Coupled(c1.store[ref].phases, c1.phases), c1.ours, cmd.kind);
        StepChannelKeeps(c1, ref, cmd);
        EffectsKeep(StepChannel(c1, ref, cmd).circuit, ref, cmd);
      case _ =>
    }
  }

  lemma FreshChannelMatched(circuit: CircuitPhases)
    requires MatchedCircuit(circuit)
    ensures InLockStep(Coupled(FRESH_CHANNEL, circuit))
  {}

  /** What the circuit's own machine may do to a matched pair of phases. */
  lemma CircuitTableMatched(p: CircuitPhases, role: Role, kind: Kind)
    requires MatchedCircuit(p)
    ensures var next := CircuitTable(role, p.Get(role), kind);
            next.Some? ==>
              && p != DOWN
              && !next.value.Disconnected?
              && (var other := CircuitTable(role.Other(), p.Get(role.Other()), kind);
                  if other.Some? then MatchedCircuit(p.Set(role, next.value).Set(role.Other(), other.value))
                  else p.Set(role, next.value) == p)
  {}

  /** While the circuit is up, stepping a role touches nothing but its phase. */
  lemma StepCircuitRoleUp(c: Circuit, role: Role, kind: Kind)
    requires !c.phases.client.Disconnected? && !c.phases.server.Disconnected?
    ensures var next := CircuitTable(role, c.phases.Get(role), kind);
            StepCircuitRole(c, role, kind) ==
            if next.Some? then Checked(c.(phases := c.phases.Set(role, next.value)), None)
            else Checked(c, Some(GetException(role, kind)))
  {
    TableNeverDisconnects(role, c.phases.Get(role), kind);
    hide CircuitTable, UpdateListed;
    var next := CircuitTable(role, c.phases.Get(role), kind);
    if next.Some? {
      UpdateListedUp(c.(phases := c.phases.Set(role, next.value)));
    }
  }

  lemma TableNeverDisconnects(role: Role, phase: CircuitPhase, kind: Kind)
    ensures CircuitTable(role, phase, kind) != Some(Disconnected)
    ensures phase.Disconnected? ==> CircuitTable(role, phase, kind).None?
  {}

  /** A circuit command moves the circuit's two phases and may lower the version. */
  lemma ProcessForCircuitEffect(c: Circuit, cmd: Command)
    requires c.Wf() && MatchedCircuit(c.phases)
    ensures var r := ProcessForCircuit(c, cmd);
            && MatchedCircuit(r.circuit.phases)
            && (c.phases == DOWN ==> r.circuit == c)
            && (c.phases != DOWN ==> r.circuit.phases != DOWN)
            && (r.circuit == c || exists p :: r.circuit == Negotiate(c.(phases := p), cmd).circuit)
  {
    CircuitTableMatched(c.phases, c.ours, cmd.kind);
    if c.phases != DOWN {
      StepCircuitRoleUp(c, c.ours, cmd.kind);
      var first := StepCircuitRole(c, c.ours, cmd.kind);
      NegotiateKeeps(c, cmd);
      hide CircuitTable, StepCircuitRole, Negotiate;
      if first.error.None? {
        TableNeverDisconnects(c.ours, c.phases.Get(c.ours), cmd.kind);
        StepCircuitRoleUp(first.circuit, c.ours.Other(), cmd.kind);
        var second := StepCircuitRole(first.circuit, c.ours.Other(), cmd.kind);
        if second.error.None? {
          NegotiateKeeps(second.circuit, cmd);
        }
      }
    } else {
      TableNeverDisconnects(c.ours, Disconnected, cmd.kind);
    }
  }

  lemma ProcessForCircuitLockStep(c: Circuit, cmd: Command)
    requires c.Wf() && RolesMatched(c)
    ensures RolesMatched(ProcessForCircuit(c, cmd).circuit)
    ensures (c.phases == DOWN) == (ProcessForCircuit(c, cmd).circuit.phases == DOWN)
  {
    ProcessForCircuitEffect(c, cmd);
    hide ProcessForCircuit, Negotiate, MatchedChannel;
    var r := ProcessForCircuit(c, cmd).circuit;
    if r != c {
      var p :| r == Negotiate(c.(phases := p), cmd).circuit;
      NegotiateKeeps(c.(phases := p), cmd);
    }
  }

  lemma UpdateListedUp(c: Circuit)
    requires !c.phases.client.Disconnected? && !c.phases.server.Disconnected?
    ensures UpdateListed(c) == c
  {
    forall i | 0 <= i < |c.store|
      ensures UpdatedChannel(c.store[i], c.phases) == c.store[i]
    {
      UpdateIdleWhileUp(Coupled(c.store[i].phases, c.phases));
    }
    assert UpdateListed(c).store == c.store;
  }

  lemma ExecKeepsLockStep(c: Circuit, a: Action)
    requires c.Wf() && RolesMatched(c)
    ensures RolesMatched(Exec(c, a).circuit)
  {
    hide ProcessForChannel, ProcessForCircuit;
    match a {
      case Create(cid) => FreshChannelMatched(c.phases);
      case Lose => UpdateListedInLockStep(c.(phases := DOWN));
      case Handle(cmd) =>
        var meant := Transmute(c, cmd);
        ProcessForChannelLockStep(c, meant);
        ProcessForCircuitLockStep(c, meant);
    }
  }

  /** Lock step without rollback: whatever commands are accepted or rejected on the way,
      the phases of the two roles match in every state of every run. */
  lemma {:induction false} RunsKeepLockStep(states: seq<Circuit>, actions: seq<Action>, n: nat)
    requires IsRun(states, actions) && n < |states|
    requires RolesMatched(states[0])
    ensures RolesMatched(states[n])
  {
    if n > 0 {
      RunsKeepLockStep(states, actions, n - 1);
      ExecKeepsLockStep(states[n - 1], actions[n - 1]);
    }
  }

  // ----- a lost connection stays lost

  /** What can still happen to a channel object once the circuit is down. */
  ghost predicate NeverRevived(before: Circuit, after: Circuit) {
    && |before.store| <= |after.store|
    && (forall i | 0 <= i < |before.store| && before.store[i].phases.client.Closed? ::
          after.store[i].phases.client.Closed?)
    && (forall i | 0 <= i < |after.store| && after.store[i].phases.client.Connected? ::
          i < |before.store| && before.store[i].phases.client.Connected?)
  }

  lemma StepBothRolesDown(s: Coupled, ours: Role, kind: Kind)
    requires s.circuit == DOWN
    ensures StepBothRoles(s, ours, kind).state.circuit == DOWN
    ensures var p := StepBothRoles(s, ours, kind).state.channel;
            && (s.channel.client.Closed? ==> p.client.Closed?)
            && (p.client.Connected? ==> s.channel.client.Connected?)
  {
    StepOneRoleDown(s, ours, kind);
    if StepRole(s, ours, kind).Some? {
      StepOneRoleDown(StepRole(s, ours, kind).value, ours.Other(), kind);
    }
    hide StepRole;
  }

  lemma StepOneRoleDown(s: Coupled, role: Role, kind: Kind)
    requires s.circuit == DOWN
    ensures var r := StepRole(s, role, kind);
            r.Some? ==>
              && r.value.circuit == DOWN
              && (s.channel.client.Closed? ==> r.value.channel.client.Closed?)
              && (r.value.channel.client.Connected? ==> s.channel.client.Connected?)
  {}

  lemma StepChannelDown(c: Circuit, ref: nat, cmd: Command)
    requires c.Wf() && c.phases == DOWN && ref < |c.store|
    ensures var c1 := StepChannel(c, ref, cmd).circuit;
            c1.Wf() && c1.phases == DOWN && |c1.store| == |c.store| && NeverRevived(c, c1)
  {
    hide StepBothRoles;
    StepBothRolesDown(Coupled(c.store[ref].phases, DOWN), c.ours, cmd.kind);
  }

  lemma ProcessForChannelDown(c: Circuit, cmd: Command)
    requires c.Wf() && c.phases == DOWN
    ensures ProcessForChannel(c, cmd).circuit.phases == DOWN
    ensures NeverRevived(c, ProcessForChannel(c, cmd).circuit)
  {
    IdentifyKeeps(c, cmd);
    hide Identify, StepChannel, Effects, SubscriptionError, Circuit.Wf;
    match Identify(c, cmd) {
      case Found(c1, ref) =>
        assert NeverRevived(c, c1);
        StepChannelDown(c1, ref, cmd);
        var c2 := StepChannel(c1, ref, cmd).circuit;
        NeverRevivedTransitive(c, c1, c2);
        EffectsKeep(c2, ref, cmd);
        var c3 := Effects(c2, ref, cmd).circuit;
        assert NeverRevived(c2, c3);
        NeverRevivedTransitive(c, c2, c3);
        hide NeverRevived, SamePhases;
      case _ =>
    }
  }

  lemma NeverRevivedTransitive(a: Circuit, b: Circuit, c: Circuit)
    requires NeverRevived(a, b) && NeverRevived(b, c)
    ensures NeverRevived(a, c)
  {}

  lemma ExecWhileDown(c: Circuit, a: Action)
    requires c.Wf() && c.phases == DOWN
    ensures Exec(c, a).circuit.phases == DOWN
    ensures NeverRevived(c, Exec(c, a).circuit)
  {
    hide ProcessForChannel, ProcessForCircuit;
    if a.Handle? {
      ProcessForChannelDown(c, Transmute(c, a.cmd));
      ProcessForCircuitEffect(c, Transmute(c, a.cmd));
    }
  }

  /** Disconnect is final: later commands, and channels made later, never bring the
      circuit up again, reconnect a channel or reopen a closed one. */
  lemma {:induction false} DisconnectIsFinal(states: seq<Circuit>, actions: seq<Action>, m: nat, n: nat)
    requires IsRun(states, actions) && m <= n < |states|
    requires states[m].phases == DOWN
    ensures states[n].phases == DOWN
    ensures NeverRevived(states[m], states[n])
  {
    hide Exec;
    if m < n {
      DisconnectIsFinal(states, actions, m, n - 1);
      ExecWhileDown(states[n - 1], actions[n - 1]);
    }
  }

  /** Losing the connection closes the client side of every listed channel. */
  lemma DisconnectClosesListed(c: Circuit, cid: nat)
    requires c.Wf() && RolesMatched(c) && cid in c.channels
    ensures Disconnect(c).store[c.channels[cid]].phases.client == Closed
    ensures Disconnect(c).phases == DOWN
  {
    assert c.channels[cid] in c.channels.Values;
    assert InLockStep(Coupled(c.store[c.channels[cid]].phases, c.phases));
  }

  /** Exactly the listed channels are closed by the loss, next to those closed before. */
  lemma DisconnectClosesExactly(c: Circuit, i: nat)
    requires c.Wf() && RolesMatched(c) && i < |c.store|
    ensures Disconnect(c).store[i].phases.client.Closed?
            <==> i in c.channels.Values || c.store[i].phases.client.Closed?
  {
    assert InLockStep(Coupled(c.store[i].phases, c.phases));
    if i in c.channels.Values {
      var cid :| cid in c.channels && c.channels[cid] == i;
      DisconnectClosesListed(c, cid);
    }
  }

  /** A channel object that lost its cid to a newer one is not listed any more and stays
      Connected when the connection is lost. */
  lemma OverwrittenChannelSurvives(c: Circuit, cid: nat)
    requires c.Wf() && cid in c.channels
    requires forall other <- c.channels :: other != cid ==> c.channels[other] != c.channels[cid]
    requires c.store[c.channels[cid]].phases == Pair(Connected, Connected)
    ensures Disconnect(NewChannel(c, cid)).store[c.channels[cid]].phases == Pair(Connected, Connected)
  {
    assert c.channels[cid] !in NewChannel(c, cid).channels.Values;
  }
}
