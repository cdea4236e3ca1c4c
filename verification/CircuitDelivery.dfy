/** The commands about the circuit in every interleaving: responses are never lost, and it
    is said exactly which requests are, if the opening exchange is not orderly. */
module CircuitDelivery {
  import opened Protocol
  import opened States
  import opened Circuit
  import opened LockStep
  import opened Expected
  import opened TablesKept
  import opened Runs
  import opened Refinement
  import opened Endpoint
  import opened Handshake
  import opened TwoParty
  import opened ChannelDelivery

  // ----- the phases of an end while commands arrive

  predicate Opening(p: CircuitPhases) {
    p == FRESH_CIRCUIT || p == REQUESTED || p == ESTABLISHED
  }

  function StepOrStay(p: CircuitPhases, kind: Kind): CircuitPhases {
    if !kind.ForChannel() && PhaseStep(p, kind).Some? then PhaseStep(p, kind).value else p
  }

  /** The phases after all of these have arrived. */
  function Arrive(p: CircuitPhases, cmds: seq<Command>): CircuitPhases
    decreases |cmds|
  {
    if cmds == [] then p else Arrive(StepOrStay(p, cmds[0].kind), cmds[1..])
  }

  predicate Takes(p: CircuitPhases, kind: Kind) {
    kind.ForChannel() || PhaseStep(p, kind).Some?
  }

  /** Each of these that is about the circuit is listed when its turn comes. */
  predicate Deliverable(p: CircuitPhases, cmds: seq<Command>)
    decreases |cmds|
  {
    cmds == [] || (Takes(p, cmds[0].kind) && Deliverable(StepOrStay(p, cmds[0].kind), cmds[1..]))
  }

  lemma {:induction false} DeliverableSnoc(p: CircuitPhases, cmds: seq<Command>, cmd: Command)
    ensures Deliverable(p, cmds + [cmd]) <==> Deliverable(p, cmds) && Takes(Arrive(p, cmds), cmd.kind)
    ensures Arrive(p, cmds + [cmd]) == StepOrStay(Arrive(p, cmds), cmd.kind)
    decreases |cmds|
  {
    hide Takes, StepOrStay;
    if cmds == [] {
      assert cmds + [cmd] == [cmd] && [cmd][1..] == [];
    } else {
      assert (cmds + [cmd])[1..] == cmds[1..] + [cmd];
      DeliverableSnoc(StepOrStay(p, cmds[0].kind), cmds[1..], cmd);
    }
  }

  /** What a server sends before it is asked, and before it has answered. */
  predicate Early(cmd: Command, asked: bool) {
    cmd.kind.ForChannel() || cmd.kind.VersionResponse? || (asked && cmd.kind.ErrorResponse?)
  }

  predicate AllEarly(cmds: seq<Command>, asked: bool) {
    forall cmd <- cmds :: Early(cmd, asked)
  }

  /** A client that has asked can take all of that. */
  lemma {:induction false} EarlyArrives(p: CircuitPhases, cmds: seq<Command>)
    requires (p == REQUESTED || p == ESTABLISHED) && AllEarly(cmds, true)
    ensures Deliverable(p, cmds) && (Arrive(p, cmds) == REQUESTED || Arrive(p, cmds) == ESTABLISHED)
    decreases |cmds|
  {
    if cmds != [] {
      assert Early(cmds[0], true) && forall cmd <- cmds[1..] :: cmd in cmds;
      EarlyArrives(StepOrStay(p, cmds[0].kind), cmds[1..]);
    }
  }

  lemma {:induction false} VersionsArrive(cmds: seq<Command>)
    requires AllEarly(cmds, false)
    ensures Deliverable(FRESH_CIRCUIT, cmds)
    decreases |cmds|
  {
    if cmds != [] {
      assert Early(cmds[0], false) && forall cmd <- cmds[1..] :: cmd in cmds;
      VersionsArrive(cmds[1..]);
    }
  }

  /** The requests about the circuit that a server in these phases refuses, among those
      that a client can have sent. */
  predicate Lost(p: CircuitPhases, kind: Kind) {
    && !kind.ForChannel()
    && ((p == FRESH_CIRCUIT && !kind.VersionRequest?)
        || (p == REQUESTED && !kind.HostNameRequest? && !kind.ClientNameRequest?))
  }

  lemma RequestMoves(p: CircuitPhases, kind: Kind)
    requires Opening(p) && CircuitRequest(kind)
    ensures StepOrStay(p, kind) == if p == FRESH_CIRCUIT && kind.VersionRequest? then REQUESTED else p
    ensures PhaseStep(p, kind).Some? ==> AcceptedWhileConnected(kind) && (p == FRESH_CIRCUIT ==> kind.VersionRequest?)
  {}

  lemma ResponseMoves(p: CircuitPhases, kind: Kind)
    requires Opening(p) && CircuitResponse(kind)
    ensures StepOrStay(p, kind) == if p == REQUESTED && kind.VersionResponse? then ESTABLISHED else p
    ensures p == FRESH_CIRCUIT && PhaseStep(p, kind).Some? ==> kind.VersionResponse?
    ensures p == REQUESTED && PhaseStep(p, kind).Some? ==> kind.VersionResponse? || kind.ErrorResponse?
  {}

  // ----- the invariant

  predicate ClientReady(c: CircuitPhases, rs: seq<Command>) {
    && Opening(c) && Deliverable(c, rs) && (c == FRESH_CIRCUIT ==> AllEarly(rs, false))
    && forall r <- rs :: r.kind.ForChannel() || CircuitResponse(r.kind)
  }

  predicate Plausible(q: Command) {
    q.kind.ForChannel() || (CircuitRequest(q.kind) && AcceptedWhileConnected(q.kind))
  }

  predicate ServerReady(s: CircuitPhases, qs: seq<Command>) {
    Opening(s) && forall q <- qs :: Plausible(q)
  }

  /** How far the server is, and what must be on its way to the client by then. */
  predicate InStep(c: CircuitPhases, s: CircuitPhases, qs: seq<Command>, rs: seq<Command>) {
    && (c == FRESH_CIRCUIT ==> forall q <- qs :: !q.kind.VersionRequest?)
    && (s == FRESH_CIRCUIT ==> AllEarly(rs, false))
    && (s == REQUESTED ==> c != FRESH_CIRCUIT && AllEarly(rs, true))
    && (s == ESTABLISHED ==> c != FRESH_CIRCUIT && Arrive(c, rs) == ESTABLISHED)
  }

  predicate PhaseInv(w: World) {
    && (w.clientUp ==> ClientReady(w.client.phases, w.toClient))
    && (w.serverUp ==> ServerReady(w.server.phases, w.toServer))
    && (w.BothUp() ==> InStep(w.client.phases, w.server.phases, w.toServer, w.toClient))
  }

  lemma ClientMoves(c: CircuitPhases, rs: seq<Command>, q: Kind)
    requires ClientReady(c, rs) && (q.ForChannel() || CircuitRequest(q))
    ensures ClientReady(StepOrStay(c, q), rs)
  {
    if !q.ForChannel() {
      RequestMoves(c, q);
      if c == FRESH_CIRCUIT && q.VersionRequest? {
        assert forall r <- rs :: Early(r, false) ==> Early(r, true);
        hide Early;
        EarlyArrives(REQUESTED, rs);
      }
    }
    hide StepOrStay, Deliverable, AllEarly;
  }

  lemma ClientInStep(c: CircuitPhases, s: CircuitPhases, qs: seq<Command>, rs: seq<Command>, q: Command)
    requires InStep(c, s, qs, rs) && Opening(c) && (q.kind.ForChannel() || CircuitRequest(q.kind))
    ensures InStep(StepOrStay(c, q.kind), s, qs, rs)
    ensures Takes(c, q.kind) ==> InStep(StepOrStay(c, q.kind), s, qs + [q], rs) && Plausible(q)
  {
    if !q.kind.ForChannel() {
      RequestMoves(c, q.kind);
      hide StepOrStay, PhaseStep;
    }
    hide AllEarly, Arrive;
  }

  lemma OneMoreEarly(rs: seq<Command>, r: Command, asked: bool)
    requires AllEarly(rs, asked) && Early(r, asked)
    ensures AllEarly(rs + [r], asked)
  {}

  /** The server sends what its own phases list. */
  lemma ServerMoves(c: CircuitPhases, s: CircuitPhases, qs: seq<Command>, rs: seq<Command>, r: Command)
    requires InStep(c, s, qs, rs) && ClientReady(c, rs) && Opening(s)
    requires (r.kind.ForChannel() || CircuitResponse(r.kind)) && Takes(s, r.kind)
    ensures ClientReady(c, rs + [r]) && InStep(c, StepOrStay(s, r.kind), qs, rs + [r])
  {
    DeliverableSnoc(c, rs, r);
    if r.kind.ForChannel() {
      ChannelCommandInStep(c, s, qs, rs, r);
    } else {
      ResponseMoves(s, r.kind);
      hide Deliverable, Arrive, AllEarly;
      if s == ESTABLISHED {
        assert StepOrStay(ESTABLISHED, r.kind) == ESTABLISHED;
      } else {
        AnswerInStep(c, s, qs, rs, r);
      }
    }
  }

  lemma ChannelCommandInStep(c: CircuitPhases, s: CircuitPhases, qs: seq<Command>, rs: seq<Command>, r: Command)
    requires InStep(c, s, qs, rs) && ClientReady(c, rs) && r.kind.ForChannel()
    ensures ClientReady(c, rs + [r]) && InStep(c, s, qs, rs + [r])
  {
    DeliverableSnoc(c, rs, r);
    hide Deliverable, Arrive;
  }

  lemma AnswerInStep(c: CircuitPhases, s: CircuitPhases, qs: seq<Command>, rs: seq<Command>, r: Command)
    requires InStep(c, s, qs, rs) && ClientReady(c, rs) && (s == FRESH_CIRCUIT || s == REQUESTED)
    requires CircuitResponse(r.kind) && PhaseStep(s, r.kind).Some?
    ensures ClientReady(c, rs + [r]) && InStep(c, StepOrStay(s, r.kind), qs, rs + [r])
  {
    ResponseMoves(s, r.kind);
    DeliverableSnoc(c, rs, r);
    OneMoreEarly(rs, r, s == REQUESTED);
    assert AllEarly(rs, true) && AllEarly(rs + [r], true);
    hide AllEarly, Deliverable, Arrive;
    if c == FRESH_CIRCUIT {
      VersionsArrive(rs + [r]);
    } else {
      EarlyArrives(c, rs);
      EarlyArrives(c, rs + [r]);
    }
  }

  lemma ClientTakes(c: CircuitPhases, rs: seq<Command>)
    requires ClientReady(c, rs) && rs != []
    ensures Takes(c, rs[0].kind) && ClientReady(StepOrStay(c, rs[0].kind), rs[1..])
    ensures c != FRESH_CIRCUIT ==> StepOrStay(c, rs[0].kind) != FRESH_CIRCUIT
    ensures Arrive(c, rs) == Arrive(StepOrStay(c, rs[0].kind), rs[1..])
  {
    assert rs[0] in rs && forall r <- rs[1..] :: r in rs;
    if !rs[0].kind.ForChannel() {
      ResponseMoves(c, rs[0].kind);
      hide StepOrStay, PhaseStep;
    }
  }

  lemma ClientTakesInStep(c: CircuitPhases, s: CircuitPhases, qs: seq<Command>, rs: seq<Command>)
    requires ClientReady(c, rs) && rs != [] && InStep(c, s, qs, rs)
    ensures InStep(StepOrStay(c, rs[0].kind), s, qs, rs[1..])
  {
    ClientTakes(c, rs);
    assert forall r <- rs[1..] :: r in rs;
    assert rs[0].kind.ForChannel() || CircuitResponse(rs[0].kind);
    if c == FRESH_CIRCUIT && !rs[0].kind.ForChannel() {
      ResponseMoves(c, rs[0].kind);
    }
    hide ClientReady, Takes, Arrive, PhaseStep, Early;
  }

  lemma ServerTakes(s: CircuitPhases, qs: seq<Command>)
    requires ServerReady(s, qs) && qs != []
    ensures ServerReady(StepOrStay(s, qs[0].kind), qs[1..])
    ensures Takes(s, qs[0].kind) <==> !Lost(s, qs[0].kind)
  {
    assert qs[0] in qs && Plausible(qs[0]) && forall q <- qs[1..] :: q in qs;
  }

  lemma ServerTakesInStep(c: CircuitPhases, s: CircuitPhases, qs: seq<Command>, rs: seq<Command>)
    requires ServerReady(s, qs) && qs != [] && InStep(c, s, qs, rs)
    ensures InStep(c, StepOrStay(s, qs[0].kind), qs[1..], rs)
  {
    assert qs[0] in qs && Plausible(qs[0]) && forall q <- qs[1..] :: q in qs;
    if !qs[0].kind.ForChannel() {
      RequestMoves(s, qs[0].kind);
      hide StepOrStay, PhaseStep;
    }
    hide Arrive;
  }

  // ----- the steps

  /** What one command about the circuit does to its phases, and whether it is accepted. */
  lemma PhasesAfter(c: Circuit, cmd: Command)
    requires c.Wf() && MatchedCircuit(c.phases) && c.phases != DOWN
    requires !cmd.kind.ForChannel()
    ensures Process(c, cmd).circuit.Wf()
    ensures Accepts(c, cmd) <==> PhaseStep(c.phases, cmd.kind).Some? && PriorityFits(c, cmd)
    ensures Process(c, cmd).circuit.phases == StepOrStay(c.phases, cmd.kind)
  {
    assert Process(c, cmd) == ProcessForCircuit(c, cmd);
    ExecKeepsWf(c, Handle(cmd));
    CircuitStepped(c, cmd);
    hide ProcessForCircuit, PhaseStep, MatchedCircuit, PriorityFits;
    if PhaseStep(c.phases, cmd.kind).Some? {
      var stepped := c.(phases := PhaseStep(c.phases, cmd.kind).value);
      assert stepped.Wf();
      NegotiateOutsideAbs(stepped, cmd);
      hide Negotiate;
    }
  }

  lemma PhasesFollow(c: Circuit, cmd: Command)
    requires Live(c)
    ensures Process(c, cmd).circuit.phases == StepOrStay(c.phases, cmd.kind) && Opening(c.phases)
    ensures !cmd.kind.ForChannel() ==> (Accepts(c, cmd) <==> Takes(c.phases, cmd.kind) && PriorityFits(c, cmd))
  {
    assert Good(c) && c.Wf() && MatchedCircuit(c.phases) && c.phases != DOWN;
    hide Live, Good, Process, PriorityFits, PhaseStep;
    if cmd.kind.ForChannel() {
      ChannelCommandKeepsPhases(c, cmd);
    } else {
      PhasesAfter(c, cmd);
    }
  }

  /** Both invariants, and priorities that fit. */
  ghost predicate AnyOrderInv(w: World) {
    ChannelInv(w) && PriorityKnown(w) && PhaseInv(w)
  }

  lemma ClientSendKeepsPhases(w: World, q: Command)
    requires AnyOrderInv(w) && Allowed(w, ClientSend(q))
    ensures PriorityKnown(Next(w, ClientSend(q))) && PhaseInv(Next(w, ClientSend(q)))
  {
    assert Live(w.client) && w.client.Wf() && (q.kind.ForChannel() || CircuitRequest(q.kind));
    SentAsItIs(q);
    hide Live, ChannelInv, Process, IsRequest, Assumed, OnWire, StepOrStay, ClientReady, InStep, Plausible, Circuit.Wf;
    PhasesFollow(w.client, q);
    PriorityAfter(w.client, q);
    ClientMoves(w.client.phases, w.toClient, q.kind);
    if w.serverUp {
      ClientInStep(w.client.phases, w.server.phases, w.toServer, w.toClient, q);
    }
  }

  lemma ServerSendKeepsPhases(w: World, r: Command)
    requires AnyOrderInv(w) && Allowed(w, ServerSend(r))
    ensures PriorityKnown(Next(w, ServerSend(r))) && PhaseInv(Next(w, ServerSend(r)))
  {
    assert Live(w.server) && w.server.Wf() && w.serverUp;
    ServerSendKeepsPriority(w, r);
    hide Live, ChannelInv, Process, IsResponse, Assumed, OnWire, PhaseStep, ClientReady, InStep, Plausible, Circuit.Wf,
         ConfirmsPending, PriorityKnown, PriorityFits;
    AboutTheSame(w.server, r);
    PhasesFollow(w.server, r);
    if Accepts(w.server, r) && w.clientUp {
      ServerMoves(w.client.phases, w.server.phases, w.toServer, w.toClient, OnWire(r));
    }
  }

  lemma ServerSendKeepsPriority(w: World, r: Command)
    requires w.Wf() && PriorityKnown(w) && Allowed(w, ServerSend(r))
    ensures PriorityKnown(Next(w, ServerSend(r)))
  {
    AboutTheSame(w.server, r);
    hide Process, IsResponse, Assumed, OnWire, Circuit.Wf, ConfirmsPending;
    PriorityAfter(w.server, r);
  }

  /** The wire form of a response is about the same thing, if not of the same class. */
  lemma AboutTheSame(s: Circuit, r: Command)
    requires IsResponse(r) || ConfirmsPending(s, r)
    ensures r.kind.ForChannel() || CircuitResponse(r.kind)
    ensures OnWire(r).kind.ForChannel() == r.kind.ForChannel() && !OnWire(r).kind.VersionRequest?
    ensures !r.kind.VersionRequest? && (!r.kind.ForChannel() ==> OnWire(r) == r)
  {}

  /** The head of the server's queue is accepted unless it is one of the lost requests. */
  lemma RequestArrives(w: World)
    requires AnyOrderInv(w) && Allowed(w, ServerReceive)
    ensures Accepts(w.server, w.toServer[0]) <==> !Lost(w.server.phases, w.toServer[0].kind)
    ensures PriorityKnown(Next(w, ServerReceive)) && PhaseInv(Next(w, ServerReceive))
  {
    var q := w.toServer[0];
    assert Live(w.server) && w.server.Wf() && q in w.toServer && PriorityFits(w.server, q);
    ReceiveKeepsPriority(w);
    ChannelRequestAccepted(w);
    hide Live, ChannelInv, Process, PhaseStep, PriorityKnown, ServerReady, InStep, Circuit.Wf;
    PhasesFollow(w.server, q);
    ServerTakes(w.server.phases, w.toServer);
    if w.clientUp {
      ServerTakesInStep(w.client.phases, w.server.phases, w.toServer, w.toClient);
    }
  }

  lemma ResponseArrives(w: World)
    requires AnyOrderInv(w) && Allowed(w, ClientReceive)
    ensures Accepts(w.client, w.toClient[0])
    ensures PriorityKnown(Next(w, ClientReceive)) && PhaseInv(Next(w, ClientReceive))
  {
    var r := w.toClient[0];
    assert Live(w.client) && w.client.Wf() && r in w.toClient && PriorityFits(w.client, r);
    PriorityAfter(w.client, r);
    ChannelResponseAccepted(w);
    hide Live, ChannelInv, Process, PhaseStep, ClientReady, InStep, Circuit.Wf;
    PhasesFollow(w.client, r);
    ClientTakes(w.client.phases, w.toClient);
    if w.serverUp {
      ClientTakesInStep(w.client.phases, w.server.phases, w.toServer, w.toClient);
    }
  }

  lemma ConstructKeepsPhases(w: World, role: Role, cid: nat)
    requires w.Wf() && PriorityKnown(w) && PhaseInv(w) && Allowed(w, Construct(role, cid))
    ensures PriorityKnown(Next(w, Construct(role, cid))) && PhaseInv(Next(w, Construct(role, cid)))
  {
    hide ClientReady, ServerReady, InStep, Circuit.Wf;
  }

  lemma LossKeepsPhases(w: World, role: Role)
    requires w.Wf() && PriorityKnown(w) && PhaseInv(w) && Allowed(w, LoseConnection(role))
    ensures PriorityKnown(Next(w, LoseConnection(role))) && PhaseInv(Next(w, LoseConnection(role)))
  {
    assert Disconnect(w.client).priority == w.client.priority && Disconnect(w.server).priority == w.server.priority;
    hide ClientReady, ServerReady, InStep, Circuit.Wf, Disconnect;
  }

  lemma NextKeepsAnyOrder(w: World, step: Step)
    requires AnyOrderInv(w) && Allowed(w, step)
    ensures AnyOrderInv(Next(w, step))
  {
    assert w.Wf() && ChannelInv(w) && PriorityKnown(w) && PhaseInv(w);
    hide Next, Allowed, PhaseInv, PriorityKnown, Process, Lost, Accepts;
    NextKeepsChannels(w, step);
    assert Next(w, step).Wf();
    hide ChannelInv;
    match step {
      case ClientSend(q) => ClientSendKeepsPhases(w, q);
      case ServerSend(r) => ServerSendKeepsPhases(w, r);
      case ServerReceive => RequestArrives(w);
      case ClientReceive => ResponseArrives(w);
      case Construct(role, cid) => ConstructKeepsPhases(w, role, cid);
      case LoseConnection(role) => LossKeepsPhases(w, role);
    }
  }

  lemma StartsInAnyOrder(w: World)
    requires Starts(w)
    ensures AnyOrderInv(w)
  {
    StartsKeepChannels(w);
    assert Good(w.client) && MatchedCircuit(w.client.phases) && w.client.phases != DOWN;
    hide Good, Live, Abs, ChannelInv, PhaseStep;
  }

  /** In every state of every history. */
  lemma {:induction false} HistoriesInAnyOrder(worlds: seq<World>, steps: seq<Step>, n: nat)
    requires IsHistory(worlds, steps) && n < |worlds| && Starts(worlds[0])
    ensures AnyOrderInv(worlds[n])
  {
    assert |worlds| == |steps| + 1;
    hide *;
    if n > 0 {
      HistoriesInAnyOrder(worlds, steps, n - 1);
      StepOfHistory(worlds, steps, n - 1);
      NextKeepsAnyOrder(worlds[n - 1], steps[n - 1]);
    } else {
      StartsInAnyOrder(worlds[0]);
    }
  }

  /** What becomes of everything that is sent, in every interleaving: every response is
      accepted when it arrives, and every request but those about the circuit that reach a
      server that has not been asked for its version or has not answered yet. */
  lemma WhatArrives(worlds: seq<World>, steps: seq<Step>, n: nat)
    requires IsHistory(worlds, steps) && n < |steps| && Starts(worlds[0])
    ensures worlds[n].Wf() && Allowed(worlds[n], steps[n])
    ensures steps[n].ClientReceive? ==> Accepts(worlds[n].client, worlds[n].toClient[0])
    ensures steps[n].ServerReceive? ==>
              (Accepts(worlds[n].server, worlds[n].toServer[0])
               <==> !Lost(worlds[n].server.phases, worlds[n].toServer[0].kind))
  {
    HistoriesInAnyOrder(worlds, steps, n);
    StepOfHistory(worlds, steps, n);
    hide AnyOrderInv, Next, Accepts, Lost, ViewOf, Assumed, IsRequest, IsResponse, ConfirmsPending, Starts, IsHistory;
    match steps[n] {
      case ServerReceive => RequestArrives(worlds[n]);
      case ClientReceive => ResponseArrives(worlds[n]);
      case _ =>
    }
  }

  /** What an established circuit takes of the commands about the circuit: every class that
      either role sends, except those of datagrams between repeaters and servers and the
      deprecated synchronous read. */
  lemma EstablishedTakes(c: Circuit, cmd: Command)
    requires c.Wf() && c.phases == ESTABLISHED && !cmd.kind.ForChannel()
    ensures Accepts(c, cmd) <==>
              && (cmd.kind.VersionRequest? && c.priority.Some? ==> c.priority.value == cmd.dataType)
              && !cmd.kind.ReadSyncRequest? && !cmd.kind.RepeaterRegisterRequest?
              && !cmd.kind.RepeaterConfirmResponse? && !cmd.kind.Beacon?
    ensures Process(c, cmd).circuit.phases == ESTABLISHED
  {
    hide Process, Circuit.Wf;
    PhasesAfter(c, cmd);
  }

  // ----- the situations in which requests are lost, and how they come about

  /** A version response that crosses the version request leaves the client established
      while the server still has to answer: of the requests that the client may send then,
      exactly the two names get through. */
  lemma LostWhileUnanswered(c: Circuit, s: Circuit, q: Command)
    requires c.Wf() && c.phases == ESTABLISHED && s.Wf() && s.phases == REQUESTED
    requires CircuitRequest(q.kind)
    ensures Accepts(c, q) <==> AcceptedWhileConnected(q.kind) && PriorityFits(c, q)
    ensures Accepts(s, q) <==> q.kind.HostNameRequest? || q.kind.ClientNameRequest?
  {
    hide Process, Circuit.Wf;
    PhasesAfter(c, q);
    PhasesAfter(s, q);
  }

  /** A version request with another priority leaves the client waiting for an answer to a
      request that was never sent: it may send the two names, and neither gets through. */
  lemma LostBeforeAsked(c: Circuit, s: Circuit, q: Command)
    requires c.Wf() && c.phases == REQUESTED && s.Wf() && s.phases == FRESH_CIRCUIT
    requires CircuitRequest(q.kind)
    ensures Accepts(c, q) <==> q.kind.HostNameRequest? || q.kind.ClientNameRequest?
    ensures Accepts(c, q) ==> !Accepts(s, q)
  {
    hide Process, Circuit.Wf;
    PhasesAfter(c, q);
    PhasesAfter(s, q);
  }

  /** Both together: the client is established, the server was never asked. Only another
      version request gets through. */
  lemma LostWhileNeverAsked(c: Circuit, s: Circuit, q: Command)
    requires c.Wf() && c.phases == ESTABLISHED && s.Wf() && s.phases == FRESH_CIRCUIT
    requires CircuitRequest(q.kind)
    ensures Accepts(c, q) <==> AcceptedWhileConnected(q.kind) && PriorityFits(c, q)
    ensures Accepts(s, q) <==> q.kind.VersionRequest? && PriorityFits(s, q)
  {
    hide Process, Circuit.Wf;
    PhasesAfter(c, q);
    PhasesAfter(s, q);
  }

  lemma OpeningPhases()
    ensures PhaseStep(FRESH_CIRCUIT, VersionRequest) == Some(REQUESTED)
    ensures PhaseStep(FRESH_CIRCUIT, VersionResponse) == Some(FRESH_CIRCUIT)
    ensures PhaseStep(REQUESTED, VersionResponse) == Some(ESTABLISHED)
    ensures MatchedCircuit(FRESH_CIRCUIT) && MatchedCircuit(REQUESTED) && MatchedCircuit(ESTABLISHED)
  {}

  /** How the first situation comes about: the server does not wait for the request, and
      all four steps are accepted. */
  lemma UnpromptedResponseBreaksDelivery(c: Circuit, s: Circuit, q: Command, r: Command, next: Command)
    requires c.Wf() && c.phases == FRESH_CIRCUIT && c.priority == Some(q.Priority())
    requires s.Wf() && s.phases == FRESH_CIRCUIT && s.priority.None?
    requires q.kind.VersionRequest? && r.kind.VersionResponse? && CircuitRequest(next.kind)
    ensures Accepts(c, q) && Process(c, q).circuit.Wf()
    ensures Accepts(s, r) && Process(s, r).circuit.Wf()
    ensures var c1, s1 := Process(c, q).circuit, Process(s, r).circuit;
            && Accepts(c1, r) && Process(c1, r).circuit.Wf() && Accepts(s1, q) && Process(s1, q).circuit.Wf()
            && (Accepts(Process(s1, q).circuit, next) <==>
                next.kind.HostNameRequest? || next.kind.ClientNameRequest?)
            && (next.kind.EchoRequest? ==> Accepts(Process(c1, r).circuit, next))
  {
    hide *;
    EarlyClient(c, q, r);
    EarlyServer(s, r, q);
    LostWhileUnanswered(Process(Process(c, q).circuit, r).circuit, Process(Process(s, r).circuit, q).circuit, next);
    EchoFits(Process(Process(c, q).circuit, r).circuit, next);
  }

  lemma EchoFits(c: Circuit, echo: Command)
    ensures echo.kind.EchoRequest? ==> AcceptedWhileConnected(echo.kind) && PriorityFits(c, echo)
  {}

  lemma EarlyClient(c: Circuit, q: Command, r: Command)
    requires c.Wf() && c.phases == FRESH_CIRCUIT && c.priority == Some(q.Priority())
    requires q.kind.VersionRequest? && r.kind.VersionResponse?
    ensures Accepts(c, q) && Process(c, q).circuit.Wf()
    ensures var c1 := Process(c, q).circuit;
            Accepts(c1, r) && Process(c1, r).circuit.Wf() && Process(c1, r).circuit.phases == ESTABLISHED
  {
    OpeningPhases();
    hide Process, PhaseStep, MatchedCircuit, Circuit.Wf, Accepts;
    PhasesAfter(c, q);
    PhasesAfter(Process(c, q).circuit, r);
  }

  lemma EarlyServer(s: Circuit, r: Command, q: Command)
    requires s.Wf() && s.phases == FRESH_CIRCUIT && s.priority.None?
    requires q.kind.VersionRequest? && r.kind.VersionResponse?
    ensures Accepts(s, r) && Process(s, r).circuit.Wf()
    ensures var s1 := Process(s, r).circuit;
            Accepts(s1, q) && Process(s1, q).circuit.Wf() && Process(s1, q).circuit.phases == REQUESTED
  {
    OpeningPhases();
    PriorityAfter(s, r);
    hide Process, PhaseStep, MatchedCircuit, Circuit.Wf, Accepts;
    PhasesAfter(s, r);
    PhasesAfter(Process(s, r).circuit, q);
  }

  /** How the second situation comes about: the request is refused, but its phases have
      moved on, and the server hears nothing of it. */
  lemma WrongPriorityBreaksDelivery(c: Circuit, s: Circuit, q: Command, next: Command)
    requires c.Wf() && c.phases == FRESH_CIRCUIT && q.kind.VersionRequest?
    requires c.priority.Some? && c.priority.value != q.Priority()
    requires s.Wf() && s.phases == FRESH_CIRCUIT && CircuitRequest(next.kind)
    ensures !Accepts(c, q) && Process(c, q).circuit.Wf()
    ensures var c1 := Process(c, q).circuit;
            && (Accepts(c1, next) <==> next.kind.HostNameRequest? || next.kind.ClientNameRequest?)
            && (Accepts(c1, next) ==> !Accepts(s, next))
  {
    hide Process, Circuit.Wf;
    RequestProcessed(c, q);
    LostBeforeAsked(Process(c, q).circuit, s, next);
  }
}
