/** A client circuit and a server circuit joined by two first-in-first-out queues, and
    what holds in every state that any interleaving can reach. */
module TwoParty {
  import opened Protocol
  import opened States
  import opened Circuit
  import opened LockStep
  import opened Expected
  import opened TablesKept
  import opened Runs
  import opened Refinement
  import opened Endpoint
  import opened Handshake
  import Session

  // ----- sequences of commands on a session

  function RunAll(s: View, cmds: seq<Command>): View
    decreases |cmds|
  {
    if cmds == [] then s else RunAll(Effect(s, cmds[0]), cmds[1..])
  }

  /** Each command finds its guard true when its turn comes. */
  predicate AllGuarded(s: View, cmds: seq<Command>)
    decreases |cmds|
  {
    cmds == [] || (Guard(s, cmds[0]) && AllGuarded(Effect(s, cmds[0]), cmds[1..]))
  }

  lemma {:induction false} Snoc(s: View, cmds: seq<Command>, cmd: Command)
    ensures AllGuarded(s, cmds + [cmd]) == (AllGuarded(s, cmds) && Guard(RunAll(s, cmds), cmd))
    ensures RunAll(s, cmds + [cmd]) == Effect(RunAll(s, cmds), cmd)
    decreases |cmds|
  {
    hide Guard, Effect;
    if cmds == [] {
      assert cmds + [cmd] == [cmd];
    } else {
      assert (cmds + [cmd])[1..] == cmds[1..] + [cmd];
      Snoc(Effect(s, cmds[0]), cmds[1..], cmd);
    }
  }

  /** A request sent now passes all the responses that are on their way. */
  lemma {:induction false} RequestPasses(s: View, q: Command, rs: seq<Command>)
    requires Sound(s) && IsRequest(q) && Guard(s, q)
    requires (forall r <- rs :: IsResponse(r)) && AllGuarded(s, rs)
    ensures AllGuarded(Effect(s, q), rs)
    ensures Guard(RunAll(s, rs), q)
    ensures RunAll(Effect(s, q), rs) == Effect(RunAll(s, rs), q)
    decreases |rs|
  {
    if rs != [] {
      RequestsCommute(s, q, rs[0]);
      EffectSound(s, rs[0]);
      hide Guard, Effect, IsRequest, IsResponse, Sound;
      RequestPasses(Effect(s, rs[0]), q, rs[1..]);
    }
  }

  /** A response sent now passes all the requests that are on their way. */
  lemma {:induction false} ResponsePasses(s: View, r: Command, qs: seq<Command>)
    requires Sound(s) && IsResponse(r) && Guard(s, r)
    requires (forall q <- qs :: IsRequest(q)) && AllGuarded(s, qs)
    ensures AllGuarded(Effect(s, r), qs)
    ensures Guard(RunAll(s, qs), r)
    ensures RunAll(Effect(s, r), qs) == Effect(RunAll(s, qs), r)
    decreases |qs|
  {
    if qs != [] {
      RequestsCommute(s, qs[0], r);
      EffectSound(s, qs[0]);
      hide Guard, Effect, IsRequest, IsResponse, Sound;
      ResponsePasses(Effect(s, qs[0]), r, qs[1..]);
    }
  }

  // ----- the two ends

  /** An end whose connection is lost neither sends nor receives any more. What it left on
      the way may still arrive at the other end. */
  datatype World = World(
    client: Circuit, server: Circuit, toServer: seq<Command>, toClient: seq<Command>,
    clientUp: bool, serverUp: bool)
  {
    predicate Wf() {
      client.Wf() && server.Wf()
    }

    predicate BothUp() {
      clientUp && serverUp
    }
  }

  datatype Step =
    | Construct(role: Role, cid: nat)   // a channel object is made at one end
    | ClientSend(q: Command)
    | ServerSend(r: Command)
    | ServerReceive
    | ClientReceive
    | LoseConnection(role: Role)        // one end notices that the connection is gone

  predicate Up(w: World, role: Role) {
    if role.Client? then w.clientUp else w.serverUp
  }

  /** What the ends are assumed to observe. Nothing is assumed about whether a command
      that an end tries to send is acceptable: its own circuit decides that. A version
      request may carry any priority, and a response may answer nothing. */
  predicate Allowed(w: World, step: Step)
    requires w.Wf()
  {
    match step
    case Construct(role, cid) =>
      Up(w, role) && cid !in (if role.Client? then w.client else w.server).channels
    case ClientSend(q) =>
      w.clientUp && IsRequest(q) && Assumed(ViewOf(w.client), q)
    case ServerSend(r) =>
      && w.serverUp
      && if r.kind.EventCancelResponse? then ConfirmsPending(w.server, r)
         else IsResponse(r) && Assumed(ViewOf(w.server), r) && (r.kind.EventAddResponse? ==> r.payloadSize > 0)
    case ServerReceive => w.serverUp && w.toServer != []
    case ClientReceive => w.clientUp && w.toClient != []
    case LoseConnection(role) => Up(w, role)
  }

  /** The client asks with its own priority, and the server does not send its version
      before it is asked. */
  predicate Orderly(w: World, step: Step) {
    match step
    case ClientSend(q) => q.kind.VersionRequest? ==> w.client.priority == Some(q.Priority())
    case ServerSend(r) => !Unprompted(w.server.phases, r.kind)
    case _ => true
  }

  /** A command goes on the queue, as the wire carries it, if the sender's own circuit
      accepts it; otherwise an exception is raised locally and nothing is sent. */
  function Next(w: World, step: Step): World
    requires w.Wf() && Allowed(w, step)
  {
    match step
    case Construct(Client, cid) => w.(client := NewChannel(w.client, cid))
    case Construct(Server, cid) => w.(server := NewChannel(w.server, cid))
    case ClientSend(q) =>
      w.(client := Process(w.client, q).circuit,
         toServer := if Accepts(w.client, q) then w.toServer + [OnWire(q)] else w.toServer)
    case ServerSend(r) =>
      w.(server := Process(w.server, r).circuit,
         toClient := if Accepts(w.server, r) then w.toClient + [OnWire(r)] else w.toClient)
    case ServerReceive =>
      w.(server := Process(w.server, w.toServer[0]).circuit, toServer := w.toServer[1..])
    case ClientReceive =>
      w.(client := Process(w.client, w.toClient[0]).circuit, toClient := w.toClient[1..])
    case LoseConnection(Client) => w.(client := Disconnect(w.client), clientUp := false)
    case LoseConnection(Server) => w.(server := Disconnect(w.server), serverUp := false)
  }

  // ----- the invariant

  /** These requests, on their way to an end with this view, can all be delivered. */
  ghost predicate Requests(v: View, qs: seq<Command>) {
    Sound(v) && (forall q <- qs :: IsRequest(q)) && AllGuarded(v, qs)
  }

  ghost predicate Responses(v: View, rs: seq<Command>) {
    Sound(v) && (forall r <- rs :: IsResponse(r)) && AllGuarded(v, rs)
  }

  /** The heart of the matter: both queues can be delivered, and delivering both would
      bring the two ends to the same view. */
  ghost predicate Synchronized(c: View, s: View, toServer: seq<Command>, toClient: seq<Command>) {
    Requests(s, toServer) && Responses(c, toClient) && RunAll(s, toServer) == RunAll(c, toClient)
  }

  /** The client knows its priority, and nothing else is on the way to the server. */
  ghost predicate PriorityKnown(w: World) {
    && w.client.priority.Some?
    && (w.server.priority.None? || w.server.priority == w.client.priority)
    && forall q <- w.toServer :: q.kind.VersionRequest? ==> w.client.priority == Some(q.Priority())
  }

  ghost predicate Inv(w: World) {
    && w.Wf() && PriorityKnown(w)
    && (w.clientUp ==> Live(w.client) && Responses(ViewOf(w.client), w.toClient))
    && (w.serverUp ==> Live(w.server) && Requests(ViewOf(w.server), w.toServer))
    && (w.BothUp() ==> Synchronized(ViewOf(w.client), ViewOf(w.server), w.toServer, w.toClient))
  }

  // ----- the steps on views

  lemma SendRequest(c: View, rs: seq<Command>, q: Command)
    requires Responses(c, rs) && IsRequest(q) && Guard(c, q)
    ensures Responses(Effect(c, q), rs) && Guard(RunAll(c, rs), q)
    ensures RunAll(Effect(c, q), rs) == Effect(RunAll(c, rs), q)
  {
    hide Guard, Effect, IsRequest, IsResponse, Sound;
    EffectSound(c, q);
    RequestPasses(c, q, rs);
  }

  lemma SendResponse(s: View, qs: seq<Command>, r: Command)
    requires Requests(s, qs) && IsResponse(r) && Guard(s, r)
    ensures Requests(Effect(s, r), qs) && Guard(RunAll(s, qs), r)
    ensures RunAll(Effect(s, r), qs) == Effect(RunAll(s, qs), r)
  {
    hide Guard, Effect, IsRequest, IsResponse, Sound;
    EffectSound(s, r);
    ResponsePasses(s, r, qs);
  }

  /** One more request for an end that can deal with it after the others. */
  lemma OneMoreRequest(s: View, qs: seq<Command>, q: Command)
    requires Requests(s, qs) && IsRequest(q) && Guard(RunAll(s, qs), q)
    ensures Requests(s, qs + [q]) && RunAll(s, qs + [q]) == Effect(RunAll(s, qs), q)
  {
    Snoc(s, qs, q);
    hide Guard, Effect, IsRequest, Sound;
  }

  lemma OneMoreResponse(c: View, rs: seq<Command>, r: Command)
    requires Responses(c, rs) && IsResponse(r) && Guard(RunAll(c, rs), r)
    ensures Responses(c, rs + [r]) && RunAll(c, rs + [r]) == Effect(RunAll(c, rs), r)
  {
    Snoc(c, rs, r);
    hide Guard, Effect, IsResponse, Sound;
  }

  lemma TakeRequest(s: View, qs: seq<Command>)
    requires Requests(s, qs) && qs != []
    ensures IsRequest(qs[0]) && Guard(s, qs[0]) && Requests(Effect(s, qs[0]), qs[1..])
    ensures RunAll(s, qs) == RunAll(Effect(s, qs[0]), qs[1..])
  {
    EffectSound(s, qs[0]);
    hide Guard, Effect, IsRequest, Sound;
  }

  lemma TakeResponse(c: View, rs: seq<Command>)
    requires Responses(c, rs) && rs != []
    ensures IsResponse(rs[0]) && Guard(c, rs[0]) && Responses(Effect(c, rs[0]), rs[1..])
    ensures RunAll(c, rs) == RunAll(Effect(c, rs[0]), rs[1..])
  {
    EffectSound(c, rs[0]);
    hide Guard, Effect, IsResponse, Sound;
  }

  // ----- the steps on circuits

  /** Only a version request sets a priority, and only where there is none. */
  lemma PriorityAfter(c: Circuit, cmd: Command)
    requires c.Wf()
    ensures var after := Process(c, cmd).circuit.priority;
            after == c.priority
            || (cmd.kind.VersionRequest? && c.priority.None? && after == Some(cmd.Priority()))
  {
    var meant := Transmute(c, cmd);
    ChannelCommandKeepsPriority(c, meant);
    CircuitCommandOnPriority(c, meant);
    hide ProcessForChannel, ProcessForCircuit;
  }

  lemma ChannelCommandKeepsPriority(c: Circuit, cmd: Command)
    requires c.Wf()
    ensures ProcessForChannel(c, cmd).circuit.priority == c.priority
  {
    IdentifyKeeps(c, cmd);
    IdentifyKeepsPriority(c, cmd);
    hide Identify, StepChannel, Effects, SubscriptionError;
    match Identify(c, cmd) {
      case Found(c1, ref) =>
        StepChannelKeepsTables(c1, ref, cmd);
        StepChannelKeeps(c1, ref, cmd);
        EffectsKeepPriority(StepChannel(c1, ref, cmd).circuit, ref, cmd);
      case _ =>
    }
  }

  lemma IdentifyKeepsPriority(c: Circuit, cmd: Command)
    ensures Identify(c, cmd).Found? ==> Identify(c, cmd).circuit.priority == c.priority
  {}

  lemma EffectsKeepPriority(c: Circuit, ref: nat, cmd: Command)
    requires ref < |c.store|
    ensures Effects(c, ref, cmd).circuit.priority == c.priority
  {}

  lemma CircuitCommandOnPriority(c: Circuit, cmd: Command)
    requires c.Wf()
    ensures var after := ProcessForCircuit(c, cmd).circuit.priority;
            after == c.priority
            || (cmd.kind.VersionRequest? && c.priority.None? && after == Some(cmd.Priority()))
  {
    hide StepCircuitRole, LowerVersion;
    var first := StepCircuitRole(c, c.ours, cmd.kind).circuit;
    StepCircuitRoleKeepsTables(c, c.ours, cmd.kind);
    StepCircuitRoleKeepsTables(first, c.ours.Other(), cmd.kind);
    NegotiateOnPriority(StepCircuitRole(first, c.ours.Other(), cmd.kind).circuit, cmd);
    hide Negotiate;
  }

  lemma NegotiateOnPriority(c: Circuit, cmd: Command)
    ensures var after := Negotiate(c, cmd).circuit.priority;
            after == c.priority
            || (cmd.kind.VersionRequest? && c.priority.None? && after == Some(cmd.Priority()))
  {}

  lemma ConstructKeepsInv(w: World, role: Role, cid: nat)
    requires Inv(w) && Allowed(w, Construct(role, cid))
    ensures Inv(Next(w, Construct(role, cid)))
  {
    match role {
      case Client => ConstructKeepsView(w.client, cid);
      case Server => ConstructKeepsView(w.server, cid);
    }
    hide Live, Synchronized, Requests, Responses, ViewOf, Circuit.Wf;
  }

  lemma ClientSendKeepsInv(w: World, q: Command)
    requires Inv(w) && Allowed(w, ClientSend(q)) && Orderly(w, ClientSend(q))
    ensures Inv(Next(w, ClientSend(q)))
  {
    assert OnWire(q) == q && PriorityFits(w.client, q) && !Unprompted(w.client.phases, q.kind);
    hide Live, Requests, Responses, ViewOf, Process, Guard, Effect, Assumed, IsRequest, OnWire;
    RefinesView(w.client, q);
    PriorityAfter(w.client, q);
    if Accepts(w.client, q) {
      SendRequest(ViewOf(w.client), w.toClient, q);
      if w.serverUp {
        OneMoreRequest(ViewOf(w.server), w.toServer, q);
      }
    }
  }

  /** The response that goes on the wire when the server's circuit accepts one. */
  lemma ServerCircuitSends(s: Circuit, r: Command)
    requires Live(s)
    requires if r.kind.EventCancelResponse? then ConfirmsPending(s, r) else IsResponse(r) && Assumed(ViewOf(s), r)
    requires !Unprompted(s.phases, r.kind)
    ensures Live(Process(s, r).circuit) && IsResponse(OnWire(r))
    ensures Accepts(s, r) ==> Guard(ViewOf(s), OnWire(r))
    ensures ViewOf(Process(s, r).circuit) == if Accepts(s, r) then Effect(ViewOf(s), OnWire(r)) else ViewOf(s)
  {
    if r.kind.EventCancelResponse? {
      assert IsResponse(OnWire(r));
      hide Live, ViewOf, Process, Guard, Effect, ConfirmsPending, OnWire, IsResponse;
      SendConfirmation(s, r);
    } else {
      assert OnWire(r) == r && PriorityFits(s, r);
      hide Live, ViewOf, Process, Guard, Effect, Assumed, OnWire, IsResponse;
      RefinesView(s, r);
    }
  }

  lemma ServerSendKeepsInv(w: World, r: Command)
    requires Inv(w) && Allowed(w, ServerSend(r)) && Orderly(w, ServerSend(r))
    ensures Inv(Next(w, ServerSend(r)))
  {
    assert !r.kind.VersionRequest?;
    hide Live, Requests, Responses, ViewOf, Process, Guard, Effect, Assumed, IsResponse, OnWire, ConfirmsPending;
    ServerCircuitSends(w.server, r);
    PriorityAfter(w.server, r);
    if Accepts(w.server, r) {
      SendResponse(ViewOf(w.server), w.toServer, OnWire(r));
      if w.clientUp {
        OneMoreResponse(ViewOf(w.client), w.toClient, OnWire(r));
      }
    }
  }

  /** The request at the head of the queue is accepted by the server that receives it. */
  lemma RequestAccepted(w: World)
    requires Inv(w) && Allowed(w, ServerReceive)
    ensures Accepts(w.server, w.toServer[0])
    ensures Inv(Next(w, ServerReceive))
  {
    var q := w.toServer[0];
    assert w.server.Wf() && q in w.toServer && PriorityFits(w.server, q);
    ReceiveKeepsPriority(w);
    hide Live, Requests, Responses, ViewOf, Process, Guard, Effect, Assumed, IsRequest, PriorityKnown, PriorityFits;
    TakeRequest(ViewOf(w.server), w.toServer);
    GuardAssumesView(ViewOf(w.server), q);
    RefinesView(w.server, q);
  }

  lemma ReceiveKeepsPriority(w: World)
    requires w.Wf() && PriorityKnown(w) && Allowed(w, ServerReceive)
    ensures PriorityKnown(Next(w, ServerReceive))
  {
    hide Process, Circuit.Wf;
    PriorityAfter(w.server, w.toServer[0]);
    assert w.toServer[0] in w.toServer && forall other <- w.toServer[1..] :: other in w.toServer;
  }

  /** The response at the head of the queue is accepted by the client that receives it. */
  lemma ResponseAccepted(w: World)
    requires Inv(w) && Allowed(w, ClientReceive)
    ensures Accepts(w.client, w.toClient[0])
    ensures Inv(Next(w, ClientReceive))
  {
    var r := w.toClient[0];
    NoVersionRequest(ViewOf(w.client), w.toClient);
    hide Live, Requests, Responses, ViewOf, Process, Guard, Effect, Assumed, IsResponse;
    TakeResponse(ViewOf(w.client), w.toClient);
    GuardAssumesView(ViewOf(w.client), r);
    RefinesView(w.client, r);
    PriorityAfter(w.client, r);
  }

  lemma NoVersionRequest(c: View, rs: seq<Command>)
    requires Responses(c, rs) && rs != []
    ensures !rs[0].kind.VersionRequest?
  {
    assert IsResponse(rs[0]);
    hide Sound, AllGuarded;
  }

  lemma LossKeepsInv(w: World, role: Role)
    requires Inv(w) && Allowed(w, LoseConnection(role))
    ensures Inv(Next(w, LoseConnection(role)))
  {
    assert Disconnect(w.client).Wf() && Disconnect(w.server).Wf();
    hide Live, Synchronized, Requests, Responses, ViewOf, Circuit.Wf;
  }

  lemma NextKeepsInv(w: World, step: Step)
    requires Inv(w) && Allowed(w, step) && Orderly(w, step)
    ensures Inv(Next(w, step))
  {
    hide Inv, Next, Orderly, ViewOf, Assumed, IsRequest, IsResponse, ConfirmsPending, OnWire, Process, Up;
    match step {
      case Construct(role, cid) => ConstructKeepsInv(w, role, cid);
      case ClientSend(q) => ClientSendKeepsInv(w, q);
      case ServerSend(r) => ServerSendKeepsInv(w, r);
      case ServerReceive => RequestAccepted(w);
      case ClientReceive => ResponseAccepted(w);
      case LoseConnection(role) => LossKeepsInv(w, role);
    }
  }

  // ----- histories

  ghost predicate IsHistory(worlds: seq<World>, steps: seq<Step>) {
    && |worlds| == |steps| + 1
    && (forall i | 0 <= i < |worlds| :: worlds[i].Wf())
    && (forall i | 0 <= i < |steps| ::
          Allowed(worlds[i], steps[i]) && worlds[i + 1] == Next(worlds[i], steps[i]))
  }

  predicate AllOrderly(worlds: seq<World>, steps: seq<Step>)
    requires |worlds| == |steps| + 1
  {
    forall i | 0 <= i < |steps| :: Orderly(worlds[i], steps[i])
  }

  const NO_CHANNELS := Session.Session(map[], map[], map[], map[], {})

  /** Two circuits in the same phases that hold no tables yet, with nothing in flight. Only
      the client needs to know the priority. */
  ghost predicate Starts(w: World) {
    && w.BothUp() && w.toServer == w.toClient == [] && PriorityKnown(w)
    && Live(w.client) && Live(w.server)
    && Abs(w.client) == Abs(w.server) == NO_CHANNELS && w.client.phases == w.server.phases
  }

  /** Two circuits that were just made are such a start. */
  lemma NewCircuitsStart(priority: nat, clientVersion: nat, serverVersion: nat)
    ensures var w := World(Initial(Client, Some(priority), clientVersion), Initial(Server, None, serverVersion),
                           [], [], true, true);
            && w.Wf() && Starts(w)
            && w.client.phases == w.server.phases == Pair(SendVersionRequest, CircuitIdle)
            && w.client.version == clientVersion && w.server.version == serverVersion && w.server.priority.None?
  {
    InitialGood(Client, Some(priority), clientVersion);
    InitialGood(Server, None, serverVersion);
    hide Good;
  }

  lemma {:induction false} HistoriesKeepInv(worlds: seq<World>, steps: seq<Step>, n: nat)
    requires IsHistory(worlds, steps) && n < |worlds| && Starts(worlds[0]) && AllOrderly(worlds, steps)
    ensures Inv(worlds[n])
  {
    assert |worlds| == |steps| + 1;
    hide *;
    if n > 0 {
      HistoriesKeepInv(worlds, steps, n - 1);
      OrderlyStepKeepsInv(worlds, steps, n - 1);
    } else {
      StartsKeepInv(worlds[0]);
    }
  }

  lemma OrderlyStepKeepsInv(worlds: seq<World>, steps: seq<Step>, n: nat)
    requires IsHistory(worlds, steps) && n < |steps| && AllOrderly(worlds, steps) && Inv(worlds[n])
    ensures Inv(worlds[n + 1])
  {
    assert Orderly(worlds[n], steps[n]);
    hide *;
    StepOfHistory(worlds, steps, n);
    NextKeepsInv(worlds[n], steps[n]);
  }

  lemma StepOfHistory(worlds: seq<World>, steps: seq<Step>, n: nat)
    requires IsHistory(worlds, steps) && n < |steps|
    ensures n + 1 < |worlds| && worlds[n].Wf() && Allowed(worlds[n], steps[n])
    ensures worlds[n + 1] == Next(worlds[n], steps[n])
  {
    assert worlds[n + 1] == Next(worlds[n], steps[n]);
    hide Next, Allowed;
  }

  lemma StartsKeepInv(w: World)
    requires Starts(w)
    ensures Inv(w)
  {
    assert w.client.Wf() && w.server.Wf() && Good(w.client) && Good(w.server);
    assert Session.Sound(NO_CHANNELS);
    assert MatchedCircuit(w.client.phases) && w.client.phases != DOWN;
    hide Live, Abs, Circuit.Wf, Good, MatchedCircuit, Session.Sound;
  }

  /** Delivery: in every orderly interleaving, each command that the sender's own circuit
      accepted is accepted by the receiver's circuit when it arrives: requests and responses
      about channels, also when the client is closing the channel with responses in flight,
      commands about the circuit as a whole, and what is still on its way when one end
      has already lost the connection. */
  lemma EverySentCommandIsAccepted(worlds: seq<World>, steps: seq<Step>, n: nat)
    requires IsHistory(worlds, steps) && n < |steps| && Starts(worlds[0]) && AllOrderly(worlds, steps)
    ensures worlds[n].Wf() && Allowed(worlds[n], steps[n])
    ensures steps[n].ServerReceive? ==> Accepts(worlds[n].server, worlds[n].toServer[0])
    ensures steps[n].ClientReceive? ==> Accepts(worlds[n].client, worlds[n].toClient[0])
  {
    HistoriesKeepInv(worlds, steps, n);
    StepOfHistory(worlds, steps, n);
    hide Inv, Next, Accepts, ViewOf, Assumed, IsRequest, IsResponse, ConfirmsPending, Starts, IsHistory;
    match steps[n] {
      case ServerReceive => RequestAccepted(worlds[n]);
      case ClientReceive => ResponseAccepted(worlds[n]);
      case _ =>
    }
  }

  /** When nothing is in flight the two ends agree about the phases of the circuit, about
      channels, ids, open transactions and subscriptions. */
  lemma QuietEndsAgree(worlds: seq<World>, steps: seq<Step>, n: nat)
    requires IsHistory(worlds, steps) && n < |worlds| && Starts(worlds[0]) && AllOrderly(worlds, steps)
    requires worlds[n].BothUp() && worlds[n].toServer == [] && worlds[n].toClient == []
    ensures worlds[n].Wf() && ViewOf(worlds[n].client) == ViewOf(worlds[n].server)
  {
    HistoriesKeepInv(worlds, steps, n);
    hide ViewOf, Live, IsHistory, Starts, Requests, Responses;
  }
}
