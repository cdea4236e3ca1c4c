/** The exchange of versions that opens a circuit, on both of its ends. */
module Handshake {
  import opened Protocol
  import opened States
  import opened Circuit
  import opened LockStep

  const REQUESTED := Pair(AwaitVersionResponse, SendVersionResponse)
  const ESTABLISHED := Pair(CircuitConnected, CircuitConnected)

  function Min(a: nat, b: nat): nat {
    if a < b then a else b
  }

  /** Every listed channel carries the circuit's version. */
  ghost predicate Informed(c: Circuit)
    requires c.Wf()
  {
    forall cid <- c.channels :: c.store[c.channels[cid]].version == c.version
  }

  lemma LoweredVersion(c: Circuit, offered: nat)
    requires c.Wf()
    ensures var c1 := LowerVersion(c, offered);
            && c1.Wf() && Informed(c1) && c1.version == Min(c.version, offered)
            && c1.phases == c.phases && c1.priority == c.priority
  {
    assert forall cid <- c.channels :: c.channels[cid] in c.channels.Values;
  }

  /** A command that the tables of both roles list, while the circuit is up. */
  lemma BothRolesStepped(c: Circuit, cmd: Command, next: CircuitPhases)
    requires !c.phases.client.Disconnected? && !c.phases.server.Disconnected?
    requires CircuitTable(Client, c.phases.client, cmd.kind) == Some(next.client)
    requires CircuitTable(Server, c.phases.server, cmd.kind) == Some(next.server)
    ensures ProcessForCircuit(c, cmd) == Negotiate(c.(phases := next), cmd)
  {
    TableNeverDisconnects(Client, c.phases.client, cmd.kind);
    TableNeverDisconnects(Server, c.phases.server, cmd.kind);
    hide CircuitTable, StepCircuitRole, Negotiate;
    var other := c.ours.Other();
    StepCircuitRoleUp(c, c.ours, cmd.kind);
    StepCircuitRoleUp(c.(phases := c.phases.Set(c.ours, next.Get(c.ours))), other, cmd.kind);
    assert c.phases.Set(c.ours, next.Get(c.ours)).Set(other, next.Get(other)) == next;
  }

  /** A request moves both roles before its priority is looked at. */
  lemma RequestProcessed(c: Circuit, q: Command)
    requires c.Wf() && c.phases == FRESH_CIRCUIT && q.kind.VersionRequest?
    ensures var r := Process(c, q);
            && r.circuit.Wf() && r.circuit.phases == REQUESTED
            && (r.outcome.Accepted? <==> c.priority.None? || c.priority.value == q.Priority())
            && (r.outcome.Accepted? ==>
                  r.circuit.version == Min(c.version, q.Version()) && r.circuit.priority == Some(q.Priority())
                  && Informed(r.circuit))
            && (r.outcome.Rejected? ==> r.circuit == c.(phases := REQUESTED))
  {
    hide LowerVersion, ProcessForCircuit;
    assert Process(c, q) == ProcessForCircuit(c, q);
    BothRolesStepped(c, q, REQUESTED);
    LoweredVersion(c.(phases := REQUESTED, priority := Some(q.Priority())), q.Version());
    hide Process, Informed, Circuit.Wf;
  }

  /** A response establishes the circuit. A version of 0 stands for none. */
  lemma ResponseProcessed(c: Circuit, r: Command)
    requires c.Wf() && c.phases == REQUESTED && r.kind.VersionResponse? && Informed(c)
    ensures var res := Process(c, r);
            && res.outcome.Accepted? && res.circuit.Wf() && res.circuit.phases == ESTABLISHED
            && res.circuit.version == (if r.Version() == 0 then c.version else Min(c.version, r.Version()))
            && res.circuit.priority == c.priority && Informed(res.circuit)
  {
    hide LowerVersion, ProcessForCircuit;
    assert Process(c, r) == ProcessForCircuit(c, r);
    BothRolesStepped(c, r, ESTABLISHED);
    LoweredVersion(c.(phases := ESTABLISHED), r.Version());
    hide Process;
  }

  /** A client that asks with its own version and priority, and a server that does not know
      a priority yet: both ends accept both commands, are established and know the
      priority and their channels the version. They agree on the version exactly when the
      server's announcement does not leave it below what the client takes over. */
  lemma VersionsAgree(client: Circuit, server: Circuit, q: Command, r: Command)
    requires client.Wf() && client.phases == FRESH_CIRCUIT && client.priority == Some(q.Priority())
    requires server.Wf() && server.phases == FRESH_CIRCUIT && server.priority.None?
    requires q.kind.VersionRequest? && q.Version() == client.version && r.kind.VersionResponse?
    ensures Process(client, q).outcome.Accepted? && Process(server, q).outcome.Accepted?
    ensures Process(client, q).circuit.Wf() && Process(server, q).circuit.Wf()
    ensures var c, s := Process(Process(client, q).circuit, r), Process(Process(server, q).circuit, r);
            && c.outcome.Accepted? && s.outcome.Accepted?
            && c.circuit.Wf() && s.circuit.Wf() && Informed(c.circuit) && Informed(s.circuit)
            && c.circuit.phases == s.circuit.phases == ESTABLISHED
            && c.circuit.priority == s.circuit.priority == Some(q.Priority())
            && (c.circuit.version == s.circuit.version <==>
                (if r.Version() == 0 then client.version else Min(client.version, r.Version())) <= server.version)
  {
    hide Process, Informed, Circuit.Wf;
    RequestProcessed(client, q);
    RequestProcessed(server, q);
    ResponseProcessed(Process(client, q).circuit, r);
    ResponseProcessed(Process(server, q).circuit, r);
  }
}
