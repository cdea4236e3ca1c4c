/** Which end the error of a refused command blames. The exception is chosen from the point
    of view of the role whose table refuses, which need not be our own. */
module Blame {
  import opened Protocol
  import opened States
  import opened Circuit
  import opened LockStep
  import opened Expected
  import opened Handshake
  import Messages
  import Runs
  import ByteStrings

  /** The refusal names the wrong end: the other one of the two protocol errors. */
  predicate BlamesWrongEnd(ours: Role, kind: Kind, error: Option<Error>) {
    error.Some? && error.value.IsProtocolError() && error.value != GetException(ours, kind)
  }

  lemma TwoViews(ours: Role, kind: Kind)
    ensures GetException(ours, kind).IsProtocolError()
    ensures GetException(ours.Other(), kind) != GetException(ours, kind)
  {}

  /** The class is registered among those that this role puts on the wire. */
  ghost predicate Sends(role: Role, kind: Kind) {
    exists id: ByteStrings.Word16 :: Messages.ClassOf(role, id) == Some(kind)
  }

  lemma SendsWhatItIsSentBy(role: Role, kind: Kind)
    ensures Sends(role, kind) <==> Messages.SentBy(kind, role)
  {
    Messages.RegistryInvertsIds(kind, role);
    if Messages.SentBy(kind, role) {
      var id := if kind.EventCancelResponse? then 2 else Messages.WireId(kind);
      assert Messages.ClassOf(role, id) == Some(kind);
    }
  }

  /** Whose fault a refused command is: that of the role that sends its class. A beacon is
      registered for both roles and counts as the server's. */
  lemma FaultOfSender(ours: Role, kind: Kind)
    ensures GetException(ours, kind) ==
            if Sends(ours, kind) && !(kind.Beacon? && ours.Client?) then LocalProtocolError else RemoteProtocolError
  {
    SendsWhatItIsSentBy(ours, kind);
    hide Sends;
  }

  function ErrorOf(r: Result): Option<Error> {
    if r.outcome.Rejected? then Some(r.outcome.error) else None
  }

  // ----- commands about the circuit

  /** Our role accepts, the other one refuses: where the tables differ. */
  lemma TablesDiffer(p: CircuitPhases, ours: Role, kind: Kind)
    requires MatchedCircuit(p)
    ensures CircuitTable(ours, p.Get(ours), kind).Some? && CircuitTable(ours.Other(), p.Get(ours.Other()), kind).None?
            <==> ours.Client? && p == REQUESTED && (kind.EchoRequest? || kind.EchoResponse?)
  {}

  /** The wrong end is blamed exactly for an echo that passes a client's circuit before
      the server has answered the version request. */
  lemma CircuitCommandBlame(c: Circuit, cmd: Command)
    requires c.Wf() && MatchedCircuit(c.phases) && !cmd.kind.ForChannel()
    ensures BlamesWrongEnd(c.ours, cmd.kind, ErrorOf(Process(c, cmd)))
            <==> c.ours.Client? && c.phases == REQUESTED && (cmd.kind.EchoRequest? || cmd.kind.EchoResponse?)
  {
    assert Process(c, cmd) == ProcessForCircuit(c, cmd);
    TablesDiffer(c.phases, c.ours, cmd.kind);
    TwoViews(c.ours, cmd.kind);
    hide MatchedCircuit, Process;
    if c.phases == DOWN {
      TableNeverDisconnects(c.ours, Disconnected, cmd.kind);
      hide CircuitTable, Negotiate;
    } else {
      assert !c.phases.client.Disconnected? && !c.phases.server.Disconnected? by { UpPhases(c.phases); }
      RefusingRole(c, cmd);
      hide CircuitTable, StepCircuitRole;
    }
  }

  /** The protocol error of a refused command about the circuit is the local one exactly
      when our own role sends its class, but for that echo, where it is the other way
      round. */
  lemma CircuitErrorNamesSender(c: Circuit, cmd: Command)
    requires c.Wf() && MatchedCircuit(c.phases) && !cmd.kind.ForChannel() && Process(c, cmd).outcome.Rejected?
    ensures var early := c.ours.Client? && c.phases == REQUESTED && (cmd.kind.EchoRequest? || cmd.kind.EchoResponse?);
            var mine := Sends(c.ours, cmd.kind) && !(cmd.kind.Beacon? && c.ours.Client?);
            Process(c, cmd).outcome.error == if mine != early then LocalProtocolError else RemoteProtocolError
  {
    CircuitCommandBlame(c, cmd);
    FaultOfSender(c.ours, cmd.kind);
    Runs.CircuitCommandsNeverStray(c, cmd);
    hide Process, MatchedCircuit, Sends, GetException;
  }

  lemma UpPhases(p: CircuitPhases)
    requires MatchedCircuit(p) && p != DOWN
    ensures !p.client.Disconnected? && !p.server.Disconnected?
  {}

  /** While the circuit is up, the first role to refuse sets the point of view. */
  lemma RefusingRole(c: Circuit, cmd: Command)
    requires !c.phases.client.Disconnected? && !c.phases.server.Disconnected?
    ensures var error := ErrorOf(ProcessForCircuit(c, cmd));
            if CircuitTable(c.ours, c.phases.Get(c.ours), cmd.kind).None? then
              error == Some(GetException(c.ours, cmd.kind))
            else if CircuitTable(c.ours.Other(), c.phases.Get(c.ours.Other()), cmd.kind).None? then
              error == Some(GetException(c.ours.Other(), cmd.kind))
            else error.None? || error == Some(GetException(c.ours, cmd.kind))
  {
    TableNeverDisconnects(c.ours, c.phases.Get(c.ours), cmd.kind);
    hide CircuitTable, StepCircuitRole;
    StepCircuitRoleUp(c, c.ours, cmd.kind);
    var first := StepCircuitRole(c, c.ours, cmd.kind);
    if first.error.None? {
      StepCircuitRoleUp(first.circuit, c.ours.Other(), cmd.kind);
    }
  }

  /** A client that sends an echo too early is told that the server is at fault. */
  lemma EarlyEchoBlamesServer(c: Circuit, echo: Command)
    requires c.Wf() && c.ours.Client? && c.phases == REQUESTED && echo.kind.EchoRequest?
    ensures Process(c, echo).outcome == Rejected(RemoteProtocolError)
    ensures GetException(c.ours, echo.kind) == LocalProtocolError
  {
    CircuitCommandBlame(c, echo);
    hide Process;
    assert GetException(c.ours, echo.kind) == LocalProtocolError;
    assert GetException(c.ours.Other(), echo.kind) == RemoteProtocolError;
  }

  // ----- commands about a channel

  /** While the circuit is up, the tables of both roles agree about channel commands, so
      that the right end is blamed. */
  lemma ChannelCommandBlame(c: Circuit, cmd: Command)
    requires Good(c) && cmd.kind.ForChannel()
    ensures !BlamesWrongEnd(c.ours, cmd.kind, ErrorOf(Process(c, cmd)))
  {
    var meant := Transmute(c, cmd);
    ProcessAsExpected(c, meant);
    hide ProcessForChannel, Good;
    ExpectedBlame(c, meant);
    hide Expect;
  }

  /** Refused with a protocol error, a channel command raises the local one exactly when our
      own role sends its class. */
  lemma ChannelErrorNamesSender(c: Circuit, cmd: Command)
    requires Good(c) && cmd.kind.ForChannel()
    ensures Process(c, cmd).outcome == Rejected(LocalProtocolError) ==> Sends(c.ours, cmd.kind)
    ensures Process(c, cmd).outcome == Rejected(RemoteProtocolError) ==> !Sends(c.ours, cmd.kind)
  {
    ChannelCommandBlame(c, cmd);
    FaultOfSender(c.ours, cmd.kind);
    hide Process, Good, Sends, GetException;
  }

  lemma ExpectedBlame(c: Circuit, cmd: Command)
    requires c.Wf()
    ensures !BlamesWrongEnd(c.ours, cmd.kind, ErrorOf(Expect(c, cmd)))
  {
    hide SetPhases, NewChannel;
    ByCidBlame(c, cmd);
    EventBlame(c, cmd);
    hide ExpectedByCid, ExpectedEvent;
  }

  lemma EventBlame(c: Circuit, cmd: Command)
    requires c.Wf()
    ensures !BlamesWrongEnd(c.ours, cmd.kind, ErrorOf(ExpectedEvent(c, cmd)))
  {
    hide Circuit.Wf;
  }

  lemma ByCidBlame(c: Circuit, cmd: Command)
    requires c.Wf()
    ensures !BlamesWrongEnd(c.ours, cmd.kind, ErrorOf(ExpectedByCid(c, cmd)))
  {
    hide SetPhases;
    if cmd.Cid() in c.channels {
      RemovalBlame(c, c.channels[cmd.Cid()], cmd);
    }
    hide ExpectedRemoval;
  }

  lemma RemovalBlame(c: Circuit, ref: nat, cmd: Command)
    requires ref < |c.store|
    ensures !BlamesWrongEnd(c.ours, cmd.kind, ErrorOf(ExpectedRemoval(c, ref, cmd)))
  {
    hide SetPhases;
  }

  /** In general, and with the circuit down as well: the second role is the one to refuse
      exactly when our own table accepts a command on a channel that is closed by then,
      unless the other role's table tolerates it. */
  lemma StepBlame(s: Coupled, ours: Role, kind: Kind)
    requires InLockStep(s) && kind.ForChannel()
    ensures StepBothRoles(s, ours, kind).error == Some(GetException(ours.Other(), kind)) <==>
              && (s.circuit == DOWN || s.channel.client.Closed?)
              && ChannelTable(ours, s.channel.Get(ours), kind).Some?
              && !(ours.Server? && kind.EventCancelResponse?)
              && !(ours.Client? && kind.CreateChanRequest?)
  {
    TwoViews(ours, kind);
    if s.circuit == DOWN {
      StepBlameDown(s, ours, kind);
    } else if s.channel.client.Closed? {
      StepBlameClosed(s, ours, kind);
    } else {
      StepBothRolesForm(s, ours, kind);
      hide StepBothRoles, ChannelTable, MatchedChannel, BothTables;
    }
  }

  lemma StepBlameClosed(s: Coupled, ours: Role, kind: Kind)
    requires InLockStep(s) && s.circuit != DOWN && s.channel.client.Closed? && kind.ForChannel()
    ensures StepBothRoles(s, ours, kind).error == Some(GetException(ours.Other(), kind)) <==>
              ours.Client? && kind.EventCancelResponse?
    ensures ChannelTable(ours, s.channel.Get(ours), kind).Some? <==> ours.Client? && kind.EventCancelResponse?
  {
    TwoViews(ours, kind);
    assert s.channel == Pair(Closed, Closed);
    UpdateIdleWhileUp(s);
  }

  /** Once one role has stepped, the update has closed the other one, unless a server-side
      channel is still idle. */
  lemma StepBlameDown(s: Coupled, ours: Role, kind: Kind)
    requires InLockStep(s) && s.circuit == DOWN && kind.ForChannel()
    ensures StepBothRoles(s, ours, kind).error == Some(GetException(ours.Other(), kind)) <==>
              && ChannelTable(ours, s.channel.Get(ours), kind).Some?
              && !(ours.Server? && kind.EventCancelResponse?)
              && !(ours.Client? && kind.CreateChanRequest?)
  {
    TwoViews(ours, kind);
    match ChannelTable(ours, s.channel.Get(ours), kind) {
      case None =>
      case Some(phase) =>
        AfterStepDown(s, ours, kind, phase);
        SecondTableDown(s, ours, kind, phase);
        hide ChannelTable, Update, MatchedChannel;
    }
  }

  lemma AfterStepDown(s: Coupled, ours: Role, kind: Kind, phase: ChannelPhase)
    requires InLockStep(s) && s.circuit == DOWN && kind.ForChannel()
    requires ChannelTable(ours, s.channel.Get(ours), kind) == Some(phase)
    ensures var after := Update(s.(channel := s.channel.Set(ours, phase))).channel.Get(ours.Other());
            after == if ours.Client? && s.channel.server.Idle? then Idle else Closed
  {}

  lemma SecondTableDown(s: Coupled, ours: Role, kind: Kind, phase: ChannelPhase)
    requires InLockStep(s) && s.circuit == DOWN && kind.ForChannel()
    requires ChannelTable(ours, s.channel.Get(ours), kind) == Some(phase)
    ensures var after := if ours.Client? && s.channel.server.Idle? then Idle else Closed;
            ChannelTable(ours.Other(), after, kind).Some? <==>
              (ours.Server? && kind.EventCancelResponse?) || (ours.Client? && kind.CreateChanRequest?)
  {}
}
