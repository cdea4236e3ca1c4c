/** The commands about channels in every interleaving, whatever happens to the opening
    exchange: early version responses and version requests with any priority included. */
module ChannelDelivery {
  import opened Protocol
  import opened States
  import opened Circuit
  import opened LockStep
  import opened Runs
  import opened Refinement
  import opened Endpoint
  import opened TwoParty
  import Session

  /** The commands about channels among those on the way. */
  function Channels(cmds: seq<Command>): seq<Command>
    decreases |cmds|
  {
    if cmds == [] then [] else IfChannel(cmds[0]) + Channels(cmds[1..])
  }

  function IfChannel(cmd: Command): seq<Command> {
    if cmd.kind.ForChannel() then [cmd] else []
  }

  lemma {:induction false} ChannelsSnoc(cmds: seq<Command>, cmd: Command)
    ensures Channels(cmds + [cmd]) == Channels(cmds) + IfChannel(cmd)
    decreases |cmds|
  {
    hide IfChannel;
    if cmds == [] {
      assert cmds + [cmd] == [cmd] && [cmd][1..] == [];
      assert Channels([cmd]) == IfChannel(cmd) + Channels([]);
    } else {
      assert (cmds + [cmd])[1..] == cmds[1..] + [cmd];
      ChannelsSnoc(cmds[1..], cmd);
      hide Channels;
      assert IfChannel(cmds[0]) + (Channels(cmds[1..]) + IfChannel(cmd))
          == (IfChannel(cmds[0]) + Channels(cmds[1..])) + IfChannel(cmd);
    }
  }

  lemma OtherCommandSkipped(cmds: seq<Command>, cmd: Command)
    requires !cmd.kind.ForChannel()
    ensures Channels(cmds + [cmd]) == Channels(cmds)
  {
    ChannelsSnoc(cmds, cmd);
    hide Channels;
  }

  lemma ChannelsHead(cmds: seq<Command>)
    requires cmds != []
    ensures cmds[0].kind.ForChannel() ==>
              Channels(cmds) != [] && Channels(cmds)[0] == cmds[0] && Channels(cmds)[1..] == Channels(cmds[1..])
    ensures !cmds[0].kind.ForChannel() ==> Channels(cmds) == Channels(cmds[1..])
  {}

  /** What a circuit shows of its channels, as if no command about the circuit had ever
      been processed. */
  function Shown(c: Circuit): View
    requires c.Wf()
  {
    View(Abs(c), FRESH_CIRCUIT)
  }

  /** Both queues can be delivered, and that would bring the two ends to the same session,
      as far as channels are concerned. */
  ghost predicate ChannelInv(w: World) {
    && w.Wf()
    && (w.clientUp ==> Live(w.client) && Responses(Shown(w.client), Channels(w.toClient)))
    && (w.serverUp ==> Live(w.server) && Requests(Shown(w.server), Channels(w.toServer)))
    && (w.BothUp() ==>
          Synchronized(Shown(w.client), Shown(w.server), Channels(w.toServer), Channels(w.toClient)))
  }

  // ----- one command

  lemma ChannelCommandRefines(c: Circuit, cmd: Command)
    requires Live(c) && cmd.kind.ForChannel() && (IsRequest(cmd) || IsResponse(cmd)) && Session.Assumed(Abs(c), cmd)
    ensures Process(c, cmd).circuit.Wf() && Live(Process(c, cmd).circuit)
    ensures Accepts(c, cmd) <==> Guard(Shown(c), cmd)
    ensures Shown(Process(c, cmd).circuit) == if Accepts(c, cmd) then Effect(Shown(c), cmd) else Shown(c)
  {
    KindsOfCommands(cmd, cmd);
    assert c.Wf();
    hide Process, Live, Abs, Circuit.Wf, Session.Guard, Session.Effect, Session.Assumed, Session.IsRequest,
         Session.IsResponse;
    Refines(c, cmd);
    if !Accepts(c, cmd) {
      RefusalKeepsSession(c, cmd);
    }
  }

  /** A command about the circuit changes nothing about channels, whether it is accepted,
      refused or leaves moved phases behind. */
  lemma CircuitCommandShowsNothing(c: Circuit, cmd: Command)
    requires Live(c) && !cmd.kind.ForChannel()
    ensures Process(c, cmd).circuit.Wf() && Live(Process(c, cmd).circuit) && Shown(Process(c, cmd).circuit) == Shown(c)
  {
    assert c.Wf() && Exec(c, Handle(cmd)) == Process(c, cmd);
    ExecKeepsWf(c, Handle(cmd));
    hide Process, Live, Abs, PhaseStep;
    CircuitCommandRefines(c, cmd);
  }

  lemma ConfirmationRefines(c: Circuit, r: Command)
    requires Live(c) && ConfirmsPending(c, r)
    ensures Live(Process(c, r).circuit) && IsResponse(OnWire(r)) && OnWire(r).kind.ForChannel()
    ensures Accepts(c, r) ==> Guard(Shown(c), OnWire(r))
    ensures Shown(Process(c, r).circuit) == if Accepts(c, r) then Effect(Shown(c), OnWire(r)) else Shown(c)
  {
    assert IsResponse(OnWire(r)) && OnWire(r).kind.ForChannel();
    hide Process, Live, Abs, OnWire, IsResponse, ConfirmsPending, Session.Guard, Session.Effect;
    SendConfirmation(c, r);
  }

  // ----- the steps

  lemma ConstructKeepsChannels(w: World, role: Role, cid: nat)
    requires ChannelInv(w) && Allowed(w, Construct(role, cid))
    ensures ChannelInv(Next(w, Construct(role, cid)))
  {
    match role {
      case Client => ConstructKeepsView(w.client, cid);
      case Server => ConstructKeepsView(w.server, cid);
    }
    hide Live, Synchronized, Requests, Responses, Abs, Circuit.Wf, Channels;
  }

  lemma ClientSendKeepsChannels(w: World, q: Command)
    requires ChannelInv(w) && Allowed(w, ClientSend(q))
    ensures ChannelInv(Next(w, ClientSend(q)))
  {
    hide Live, Synchronized, Requests, Responses, Shown, Abs, Process, Guard, Effect, IsRequest, Channels, Circuit.Wf,
         Session.Assumed, OnWire;
    SentAsItIs(q);
    var w1 := Next(w, ClientSend(q));
    if q.kind.ForChannel() {
      ChannelCommandRefines(w.client, q);
      if Accepts(w.client, q) {
        hide ChannelInv;
        ClientQueues(w, w1, q);
      }
    } else {
      OtherCommandSkipped(w.toServer, q);
      CircuitCommandShowsNothing(w.client, q);
    }
  }

  lemma SentAsItIs(cmd: Command)
    requires IsRequest(cmd) || !cmd.kind.ForChannel()
    ensures OnWire(cmd) == cmd
  {}

  /** The queues when a request about a channel has been sent. */
  lemma ClientQueues(w: World, w1: World, q: Command)
    requires ChannelInv(w) && w.clientUp && q.kind.ForChannel() && IsRequest(q) && Guard(Shown(w.client), q)
    requires w1 == w.(client := w1.client, toServer := w.toServer + [q])
    requires w1.client.Wf() && Live(w1.client) && Shown(w1.client) == Effect(Shown(w.client), q)
    ensures ChannelInv(w1)
  {
    hide Live, Shown, Guard, Effect, IsRequest, IsResponse, Channels, Circuit.Wf, AllGuarded, Sound;
    ChannelsSnoc(w.toServer, q);
    SendRequest(Shown(w.client), Channels(w.toClient), q);
    if w.serverUp {
      OneMoreRequest(Shown(w.server), Channels(w.toServer), q);
    }
  }

  /** The response that goes on the wire, if it is about a channel. */
  lemma ServerChannelSends(s: Circuit, r: Command)
    requires Live(s) && r.kind.ForChannel()
    requires if r.kind.EventCancelResponse? then ConfirmsPending(s, r) else IsResponse(r) && Assumed(ViewOf(s), r)
    ensures Process(s, r).circuit.Wf() && Live(Process(s, r).circuit)
    ensures IsResponse(OnWire(r)) && OnWire(r).kind.ForChannel()
    ensures Accepts(s, r) ==> Guard(Shown(s), OnWire(r))
    ensures Shown(Process(s, r).circuit) == if Accepts(s, r) then Effect(Shown(s), OnWire(r)) else Shown(s)
  {
    if r.kind.EventCancelResponse? {
      hide Live, Shown, Process, Guard, Effect, ConfirmsPending, OnWire, IsResponse;
      ConfirmationRefines(s, r);
    } else {
      assert OnWire(r) == r;
      hide Live, Shown, Process, Guard, Effect, OnWire, IsResponse, Session.Assumed, Abs;
      ChannelCommandRefines(s, r);
    }
  }

  lemma ServerSendKeepsChannels(w: World, r: Command)
    requires ChannelInv(w) && Allowed(w, ServerSend(r))
    ensures ChannelInv(Next(w, ServerSend(r)))
  {
    hide Live, Synchronized, Requests, Responses, Shown, ViewOf, Process, Guard, Effect, Assumed, IsResponse, OnWire,
         ConfirmsPending, Channels, Circuit.Wf;
    var w1 := Next(w, ServerSend(r));
    if r.kind.ForChannel() {
      ServerChannelSends(w.server, r);
      if Accepts(w.server, r) {
        hide ChannelInv;
        ServerQueues(w, w1, OnWire(r));
      }
    } else {
      SentAsItIs(r);
      OtherCommandSkipped(w.toClient, r);
      CircuitCommandShowsNothing(w.server, r);
    }
  }

  lemma ServerQueues(w: World, w1: World, r: Command)
    requires ChannelInv(w) && w.serverUp && r.kind.ForChannel() && IsResponse(r) && Guard(Shown(w.server), r)
    requires w1 == w.(server := w1.server, toClient := w.toClient + [r])
    requires w1.server.Wf() && Live(w1.server) && Shown(w1.server) == Effect(Shown(w.server), r)
    ensures ChannelInv(w1)
  {
    hide Live, Shown, Guard, Effect, IsRequest, IsResponse, Channels, Circuit.Wf, AllGuarded, Sound;
    ChannelsSnoc(w.toClient, r);
    SendResponse(Shown(w.server), Channels(w.toServer), r);
    if w.clientUp {
      OneMoreResponse(Shown(w.client), Channels(w.toClient), r);
    }
  }

  /** The request at the head of the queue is accepted if it is about a channel. */
  lemma ChannelRequestAccepted(w: World)
    requires ChannelInv(w) && Allowed(w, ServerReceive)
    ensures w.toServer[0].kind.ForChannel() ==> Accepts(w.server, w.toServer[0])
    ensures ChannelInv(Next(w, ServerReceive))
  {
    var q := w.toServer[0];
    ChannelsHead(w.toServer);
    hide Live, Requests, Responses, Abs, Process, Guard, Effect, IsRequest, IsResponse, Channels, Session.Assumed;
    if q.kind.ForChannel() {
      TakeRequest(Shown(w.server), Channels(w.toServer));
      GuardAssumesView(Shown(w.server), q);
      ChannelCommandRefines(w.server, q);
    } else {
      CircuitCommandShowsNothing(w.server, q);
    }
  }

  lemma ChannelResponseAccepted(w: World)
    requires ChannelInv(w) && Allowed(w, ClientReceive)
    ensures w.toClient[0].kind.ForChannel() ==> Accepts(w.client, w.toClient[0])
    ensures ChannelInv(Next(w, ClientReceive))
  {
    var r := w.toClient[0];
    ChannelsHead(w.toClient);
    hide Live, Requests, Responses, Abs, Process, Guard, Effect, IsRequest, IsResponse, Channels, Session.Assumed;
    if r.kind.ForChannel() {
      TakeResponse(Shown(w.client), Channels(w.toClient));
      GuardAssumesView(Shown(w.client), r);
      ChannelCommandRefines(w.client, r);
    } else {
      CircuitCommandShowsNothing(w.client, r);
    }
  }

  lemma LossKeepsChannels(w: World, role: Role)
    requires ChannelInv(w) && Allowed(w, LoseConnection(role))
    ensures ChannelInv(Next(w, LoseConnection(role)))
  {
    assert Disconnect(w.client).Wf() && Disconnect(w.server).Wf();
    hide Live, Synchronized, Requests, Responses, Shown, Circuit.Wf, Channels;
  }

  lemma NextKeepsChannels(w: World, step: Step)
    requires ChannelInv(w) && Allowed(w, step)
    ensures ChannelInv(Next(w, step))
  {
    hide *;
    match step {
      case Construct(role, cid) => ConstructKeepsChannels(w, role, cid);
      case ClientSend(q) => ClientSendKeepsChannels(w, q);
      case ServerSend(r) => ServerSendKeepsChannels(w, r);
      case ServerReceive => ChannelRequestAccepted(w);
      case ClientReceive => ChannelResponseAccepted(w);
      case LoseConnection(role) => LossKeepsChannels(w, role);
    }
  }

  lemma {:induction false} HistoriesKeepChannels(worlds: seq<World>, steps: seq<Step>, n: nat)
    requires IsHistory(worlds, steps) && n < |worlds| && Starts(worlds[0])
    ensures ChannelInv(worlds[n])
  {
    assert |worlds| == |steps| + 1;
    hide *;
    if n > 0 {
      HistoriesKeepChannels(worlds, steps, n - 1);
      StepOfHistory(worlds, steps, n - 1);
      NextKeepsChannels(worlds[n - 1], steps[n - 1]);
    } else {
      StartsKeepChannels(worlds[0]);
    }
  }

  lemma StartsKeepChannels(w: World)
    requires Starts(w)
    ensures ChannelInv(w)
  {
    assert w.client.Wf() && w.server.Wf();
    assert Session.Sound(NO_CHANNELS);
    assert MatchedCircuit(FRESH_CIRCUIT) && FRESH_CIRCUIT != DOWN;
    hide Live, Abs, Circuit.Wf, MatchedCircuit, Session.Sound;
  }

  /** Delivery: in every interleaving, each command about a channel that the sender's own
      circuit accepted is accepted by the receiver's circuit when it arrives. */
  lemma EverySentChannelCommandIsAccepted(worlds: seq<World>, steps: seq<Step>, n: nat)
    requires IsHistory(worlds, steps) && n < |steps| && Starts(worlds[0])
    ensures worlds[n].Wf() && Allowed(worlds[n], steps[n])
    ensures steps[n].ServerReceive? && worlds[n].toServer[0].kind.ForChannel() ==>
              Accepts(worlds[n].server, worlds[n].toServer[0])
    ensures steps[n].ClientReceive? && worlds[n].toClient[0].kind.ForChannel() ==>
              Accepts(worlds[n].client, worlds[n].toClient[0])
  {
    HistoriesKeepChannels(worlds, steps, n);
    StepOfHistory(worlds, steps, n);
    hide ChannelInv, Next, Accepts, ViewOf, Assumed, IsRequest, IsResponse, ConfirmsPending, Starts, IsHistory;
    match steps[n] {
      case ServerReceive => ChannelRequestAccepted(worlds[n]);
      case ClientReceive => ChannelResponseAccepted(worlds[n]);
      case _ =>
    }
  }

  /** With nothing about channels in flight, the two ends agree about channels, ids, open
      transactions and subscriptions. */
  lemma QuietChannelsAgree(worlds: seq<World>, steps: seq<Step>, n: nat)
    requires IsHistory(worlds, steps) && n < |worlds| && Starts(worlds[0]) && worlds[n].BothUp()
    requires Channels(worlds[n].toServer) == [] && Channels(worlds[n].toClient) == []
    ensures worlds[n].Wf() && Abs(worlds[n].client) == Abs(worlds[n].server)
  {
    HistoriesKeepChannels(worlds, steps, n);
    hide Abs, Live, IsHistory, Starts, Requests, Responses, Channels;
  }

  // ----- conservation of transactions

  predicate OpensIn(cmds: seq<Command>, ioid: nat) {
    exists i | 0 <= i < |cmds| :: cmds[i].kind.OpensIo() && cmds[i].Ioid() == ioid
  }

  predicate ClosesIn(cmds: seq<Command>, ioid: nat) {
    exists i | 0 <= i < |cmds| :: cmds[i].kind.ClosesIo() && cmds[i].Ioid() == ioid
  }

  predicate ClearsIn(cmds: seq<Command>, cid: nat) {
    exists i | 0 <= i < |cmds| :: cmds[i].kind.ClearChannelResponse? && cmds[i].Cid() == cid
  }

  lemma InTail(cmds: seq<Command>, id: nat)
    requires cmds != []
    ensures OpensIn(cmds, id) <==> (cmds[0].kind.OpensIo() && cmds[0].Ioid() == id) || OpensIn(cmds[1..], id)
    ensures ClosesIn(cmds, id) <==> (cmds[0].kind.ClosesIo() && cmds[0].Ioid() == id) || ClosesIn(cmds[1..], id)
    ensures ClearsIn(cmds, id) <==>
              (cmds[0].kind.ClearChannelResponse? && cmds[0].Cid() == id) || ClearsIn(cmds[1..], id)
  {
    assert forall i | 0 < i < |cmds| :: cmds[i] == cmds[1..][i - 1];
    assert forall i | 0 <= i < |cmds[1..]| :: cmds[1..][i] == cmds[i + 1];
  }

  lemma RequestOnIoids(s: View, q: Command, ioid: nat)
    requires IsRequest(q) && Guard(s, q)
    ensures var opens := q.kind.OpensIo() && q.Ioid() == ioid;
            && (opens ==> ioid !in s.session.ioids)
            && (ioid in Effect(s, q).session.ioids <==> ioid in s.session.ioids || opens)
  {}

  lemma {:induction false} RequestsOnIoids(s: View, qs: seq<Command>, ioid: nat)
    requires (forall q <- qs :: IsRequest(q)) && AllGuarded(s, qs)
    ensures ioid in RunAll(s, qs).session.ioids <==> ioid in s.session.ioids || OpensIn(qs, ioid)
    ensures OpensIn(qs, ioid) ==> ioid !in s.session.ioids
    decreases |qs|
  {
    if qs != [] {
      RequestOnIoids(s, qs[0], ioid);
      RequestsOnIoids(Effect(s, qs[0]), qs[1..], ioid);
      hide Guard, Effect;
      InTail(qs, ioid);
      hide OpensIn;
    }
  }

  lemma ResponseOnIoids(s: View, r: Command, ioid: nat)
    requires IsResponse(r) && Guard(s, r)
    ensures var closes := r.kind.ClosesIo() && r.Ioid() == ioid;
            var after := Effect(s, r).session.ioids;
            && (ioid in after ==> ioid in s.session.ioids && after[ioid] == s.session.ioids[ioid] && !closes)
            && (closes ==> ioid in s.session.ioids)
            && (ioid in s.session.ioids && !closes ==>
                  ioid in after || (r.kind.ClearChannelResponse? && r.Cid() == s.session.ioids[ioid]))
  {}

  lemma {:induction false} ResponsesOnIoids(s: View, rs: seq<Command>, ioid: nat)
    requires (forall r <- rs :: IsResponse(r)) && AllGuarded(s, rs)
    ensures ioid in RunAll(s, rs).session.ioids ==> ioid in s.session.ioids && !ClosesIn(rs, ioid)
    ensures ClosesIn(rs, ioid) ==> ioid in s.session.ioids
    ensures ioid in s.session.ioids && !ClosesIn(rs, ioid) && !ClearsIn(rs, s.session.ioids[ioid])
            ==> ioid in RunAll(s, rs).session.ioids
    decreases |rs|
  {
    if rs != [] {
      ResponseOnIoids(s, rs[0], ioid);
      ResponsesOnIoids(Effect(s, rs[0]), rs[1..], ioid);
      hide Guard, Effect;
      InTail(rs, ioid);
      if ioid in s.session.ioids {
        InTail(rs, s.session.ioids[ioid]);
      }
      hide ClosesIn, ClearsIn;
    }
  }

  /** How many of three things are true. */
  function Count(a: bool, b: bool, c: bool): nat {
    (if a then 1 else 0) + (if b then 1 else 0) + (if c then 1 else 0)
  }

  /** Outstanding I/O is conserved: a transaction the client waits for is in exactly one
      place (its request in flight, the server's table, its response in flight), unless
      the confirmation that its channel was cleared is in flight; and whatever is in any
      of those places, the client is still waiting for. */
  lemma TransactionsConserved(worlds: seq<World>, steps: seq<Step>, n: nat, ioid: nat)
    requires IsHistory(worlds, steps) && n < |worlds| && Starts(worlds[0])
    requires worlds[n].BothUp()
    ensures var w := worlds[n];
            var places := Count(OpensIn(w.toServer, ioid), ioid in w.server.ioids, ClosesIn(w.toClient, ioid));
            && (ioid in w.client.ioids ==>
                  places == 1 || ClearsIn(w.toClient, w.client.store[w.client.ioids[ioid]].cid))
            && places <= 1
            && (places == 1 ==> ioid in w.client.ioids)
  {
    HistoriesKeepChannels(worlds, steps, n);
    IoPlaces(worlds[n], ioid);
    hide ChannelInv, IsHistory, Starts, OpensIn, ClosesIn, ClearsIn;
  }

  /** Opening, closing and clearing are about channels. */
  lemma {:induction false} AmongChannels(cmds: seq<Command>, id: nat)
    ensures OpensIn(Channels(cmds), id) <==> OpensIn(cmds, id)
    ensures ClosesIn(Channels(cmds), id) <==> ClosesIn(cmds, id)
    ensures ClearsIn(Channels(cmds), id) <==> ClearsIn(cmds, id)
    decreases |cmds|
  {
    if cmds != [] {
      AmongChannels(cmds[1..], id);
      InTail(cmds, id);
      ChannelsHead(cmds);
      if cmds[0].kind.ForChannel() {
        InTail(Channels(cmds), id);
      }
      hide OpensIn, ClosesIn, ClearsIn;
    }
  }

  lemma IoPlaces(w: World, ioid: nat)
    requires ChannelInv(w) && w.BothUp()
    ensures var places := Count(OpensIn(w.toServer, ioid), ioid in w.server.ioids, ClosesIn(w.toClient, ioid));
            && (ioid in w.client.ioids ==>
                  && w.client.ioids[ioid] < |w.client.store|
                  && (places == 1 || ClearsIn(w.toClient, w.client.store[w.client.ioids[ioid]].cid)))
            && places <= 1
            && (places == 1 ==> ioid in w.client.ioids)
  {
    assert Shown(w.client).session.ioids.Keys == w.client.ioids.Keys;
    assert Shown(w.server).session.ioids.Keys == w.server.ioids.Keys;
    assert ioid in w.client.ioids ==>
             Shown(w.client).session.ioids[ioid] == w.client.store[w.client.ioids[ioid]].cid;
    RequestsOnIoids(Shown(w.server), Channels(w.toServer), ioid);
    ResponsesOnIoids(Shown(w.client), Channels(w.toClient), ioid);
    AmongChannels(w.toServer, ioid);
    AmongChannels(w.toClient, ioid);
    if ioid in w.client.ioids {
      AmongChannels(w.toClient, w.client.store[w.client.ioids[ioid]].cid);
    }
    hide Shown, Live, Sound, AllGuarded, RunAll, OpensIn, ClosesIn, ClearsIn, Channels;
  }
}
