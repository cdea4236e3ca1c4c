/** One end of a connection as the other end sees it: the session of its channels together
    with the phases of its circuit. Commands about the circuit move the phases only,
    commands about channels the session only. */
module Endpoint {
  import opened Protocol
  import opened States
  import opened Circuit
  import opened LockStep
  import opened Expected
  import opened TablesKept
  import opened Handshake
  import opened Refinement
  import opened Runs
  import Session

  datatype View = View(session: Session.Session, phases: CircuitPhases)

  function ViewOf(c: Circuit): View
    requires c.Wf()
  {
    View(Abs(c), c.phases)
  }

  predicate CircuitRequest(kind: Kind) {
    !kind.ForChannel() && kind.IsRequest()
  }

  predicate CircuitResponse(kind: Kind) {
    !kind.ForChannel() && !kind.IsRequest()
  }

  predicate IsRequest(cmd: Command) {
    Session.IsRequest(cmd) || CircuitRequest(cmd.kind)
  }

  predicate IsResponse(cmd: Command) {
    Session.IsResponse(cmd) || CircuitResponse(cmd.kind)
  }

  /** Where the circuit's tables lead, if both roles list the command. */
  function PhaseStep(p: CircuitPhases, kind: Kind): Option<CircuitPhases> {
    match (CircuitTable(Client, p.client, kind), CircuitTable(Server, p.server, kind))
    case (Some(client), Some(server)) => Some(Pair(client, server))
    case _ => None
  }

  /** A version response that answers no request. */
  predicate Unprompted(p: CircuitPhases, kind: Kind) {
    kind.VersionResponse? && p == FRESH_CIRCUIT
  }

  predicate Guard(v: View, cmd: Command) {
    if cmd.kind.ForChannel() then Session.Guard(v.session, cmd)
    else PhaseStep(v.phases, cmd.kind).Some? && !Unprompted(v.phases, cmd.kind)
  }

  function Effect(v: View, cmd: Command): View {
    if cmd.kind.ForChannel() then v.(session := Session.Effect(v.session, cmd))
    else
      match PhaseStep(v.phases, cmd.kind)
      case None => v
      case Some(phases) => v.(phases := phases)
  }

  /** What the ends are assumed to observe is about channels only. */
  predicate Assumed(v: View, cmd: Command) {
    cmd.kind.ForChannel() ==> Session.Assumed(v.session, cmd)
  }

  ghost predicate Sound(v: View) {
    Session.Sound(v.session) && MatchedCircuit(v.phases) && v.phases != DOWN
  }

  lemma EffectSound(v: View, cmd: Command)
    requires Sound(v) && Guard(v, cmd)
    ensures Sound(Effect(v, cmd))
  {
    hide Session.Guard, Session.Effect, Session.Sound;
    if cmd.kind.ForChannel() {
      Session.EffectSound(v.session, cmd);
    } else {
      PhaseStepMatched(v.phases, cmd.kind);
    }
  }

  lemma PhaseStepMatched(p: CircuitPhases, kind: Kind)
    requires MatchedCircuit(p) && p != DOWN && PhaseStep(p, kind).Some?
    ensures MatchedCircuit(PhaseStep(p, kind).value) && PhaseStep(p, kind).value != DOWN
  {}

  // ----- requests commute with responses

  ghost predicate Commute(v: View, q: Command, r: Command) {
    && Guard(Effect(v, q), r)
    && Guard(Effect(v, r), q)
    && Effect(Effect(v, q), r) == Effect(Effect(v, r), q)
  }

  lemma PhasesCommute(p: CircuitPhases, q: Kind, r: Kind)
    requires MatchedCircuit(p) && p != DOWN && CircuitRequest(q) && CircuitResponse(r)
    requires PhaseStep(p, q).Some? && PhaseStep(p, r).Some? && !Unprompted(p, r)
    ensures var afterQ, afterR := PhaseStep(p, q).value, PhaseStep(p, r).value;
            && !Unprompted(afterQ, r) && !Unprompted(afterR, q) && PhaseStep(afterQ, r).Some?
            && PhaseStep(afterR, q) == PhaseStep(afterQ, r)
  {}

  /** Commands may cross on the way, whatever they are about. */
  lemma RequestsCommute(v: View, q: Command, r: Command)
    requires Sound(v) && IsRequest(q) && Guard(v, q) && IsResponse(r) && Guard(v, r)
    ensures Commute(v, q, r)
  {
    KindsOfCommands(q, r);
    hide Session.Guard, Session.Effect, Session.Sound, Session.IsRequest, Session.IsResponse, PhaseStep, Unprompted,
         MatchedCircuit;
    if q.kind.ForChannel() && r.kind.ForChannel() {
      Session.RequestsCommute(v.session, q, r);
    } else if !q.kind.ForChannel() && !r.kind.ForChannel() {
      PhasesCommute(v.phases, q.kind, r.kind);
    }
  }

  lemma KindsOfCommands(q: Command, r: Command)
    ensures IsRequest(q) && q.kind.ForChannel() ==> Session.IsRequest(q)
    ensures IsResponse(r) && r.kind.ForChannel() ==> Session.IsResponse(r)
    ensures IsRequest(q) && !q.kind.ForChannel() ==> CircuitRequest(q.kind)
    ensures IsResponse(r) && !r.kind.ForChannel() ==> CircuitResponse(r.kind)
  {}

  // ----- a circuit refines its view

  /** A version request must carry the priority of the circuit, if it has one. */
  predicate PriorityFits(c: Circuit, cmd: Command) {
    cmd.kind.VersionRequest? && c.priority.Some? ==> c.priority.value == cmd.Priority()
  }

  lemma CircuitStepped(c: Circuit, cmd: Command)
    requires MatchedCircuit(c.phases) && c.phases != DOWN
    ensures var r := ProcessForCircuit(c, cmd);
            match PhaseStep(c.phases, cmd.kind)
            case Some(next) => r == Negotiate(c.(phases := next), cmd)
            case None => r.outcome.Rejected? && r.circuit == c
  {
    assert !c.phases.client.Disconnected? && !c.phases.server.Disconnected?;
    CircuitTableMatched(c.phases, c.ours, cmd.kind);
    hide MatchedCircuit;
    match PhaseStep(c.phases, cmd.kind) {
      case Some(next) =>
        hide ProcessForCircuit, CircuitTable;
        BothRolesStepped(c, cmd, next);
      case None =>
        hide StepCircuitRole, Negotiate, CircuitTable;
        StepCircuitRoleUp(c, c.ours, cmd.kind);
        var first := StepCircuitRole(c, c.ours, cmd.kind);
        if first.error.None? {
          assert first.circuit == c;
          StepCircuitRoleUp(c, c.ours.Other(), cmd.kind);
        }
    }
  }

  /** What a session shows of the channels depends on neither phases nor versions. */
  lemma RenegotiatedAbs(c: Circuit, c1: Circuit)
    requires c.Wf() && Renegotiated(c, c1)
    ensures Abs(c1) == Abs(c)
    ensures NoEarlyRights(c) ==> NoEarlyRights(c1)
    ensures CancelsAgree(c) ==> CancelsAgree(c1)
  {
    assert forall i | 0 <= i < |c.store| ::
             ChanOf(c1.store[i]) == ChanOf(c.store[i]) && c1.store[i].phases == c.store[i].phases
             && c1.store[i].cid == c.store[i].cid && c1.store[i].accessRights == c.store[i].accessRights;
    assert c1.Wf() && |c1.store| == |c.store| && c1.channels == c.channels;
    hide Renegotiated, Circuit.Wf, ChanOf;
    SamePlaces(c, c1);
    SameShownChans(c, c1);
    hide AbsTable, AbsChans;
  }

  lemma SameShownChans(c: Circuit, c1: Circuit)
    requires c.Wf() && c1.Wf() && c1.channels == c.channels && |c1.store| == |c.store|
    requires forall i | 0 <= i < |c.store| ::
               ChanOf(c1.store[i]) == ChanOf(c.store[i]) && c1.store[i].phases == c.store[i].phases
    ensures AbsChans(c1) == AbsChans(c)
  {}

  /** `c1` shows the same channels, and is as live as `c` but for the phases. */
  ghost predicate SameShown(c: Circuit, c1: Circuit)
    requires c.Wf()
  {
    c1.Wf() && Abs(c1) == Abs(c) && (NoEarlyRights(c) ==> NoEarlyRights(c1)) && (CancelsAgree(c) ==> CancelsAgree(c1))
  }

  lemma PhasesOutsideAbs(c: Circuit, p: CircuitPhases)
    requires c.Wf()
    ensures SameShown(c, c.(phases := p))
  {
    var c1 := c.(phases := p);
    assert c1.Wf();
    hide Circuit.Wf;
    SameChans(c, c1);
    hide AbsChans, AbsTable;
  }

  lemma NegotiateOutsideAbs(c: Circuit, cmd: Command)
    requires c.Wf()
    ensures SameShown(c, Negotiate(c, cmd).circuit)
    ensures PriorityFits(c, cmd) <==> Negotiate(c, cmd).outcome.Accepted?
    ensures Negotiate(c, cmd).circuit.phases == c.phases
  {
    NegotiateKeeps(c, cmd);
    RenegotiatedAbs(c, Negotiate(c, cmd).circuit);
    hide LowerVersion, Abs, NoEarlyRights, CancelsAgree, Circuit.Wf;
  }

  /** The phases move whether or not the priority of a version request fits. */
  lemma CircuitCommandRefines(c: Circuit, cmd: Command)
    requires Live(c) && !cmd.kind.ForChannel()
    ensures var r := Process(c, cmd);
            && (r.outcome.Accepted? <==> PhaseStep(c.phases, cmd.kind).Some? && PriorityFits(c, cmd))
            && Live(r.circuit) && ViewOf(r.circuit) == Effect(ViewOf(c), cmd)
  {
    assert c.Wf() && Good(c) && NoEarlyRights(c) && CancelsAgree(c) && MatchedCircuit(c.phases) && c.phases != DOWN;
    assert Process(c, cmd) == ProcessForCircuit(c, cmd);
    ProcessKeepsGood(c, cmd);
    CircuitStepped(c, cmd);
    hide Process, ProcessForCircuit, PhaseStep, Abs, Good, NoEarlyRights, CancelsAgree, Negotiate, MatchedCircuit;
    match PhaseStep(c.phases, cmd.kind) {
      case None =>
      case Some(next) =>
        PhasesOutsideAbs(c, next);
        NegotiateOutsideAbs(c.(phases := next), cmd);
    }
  }

  lemma ChannelCommandKeepsPhases(c: Circuit, cmd: Command)
    requires Good(c) && cmd.kind.ForChannel()
    ensures Process(c, cmd).circuit.phases == c.phases
  {
    assert c.Wf();
    hide ProcessForChannel, RolesMatched, Tables;
    ProcessForChannelLockStep(c, Transmute(c, cmd));
  }

  /** The refinement, for commands of both sorts. */
  lemma RefinesView(c: Circuit, cmd: Command)
    requires Live(c) && (IsRequest(cmd) || IsResponse(cmd)) && Assumed(ViewOf(c), cmd)
    requires PriorityFits(c, cmd) && !Unprompted(c.phases, cmd.kind)
    ensures Process(c, cmd).outcome.Accepted? <==> Guard(ViewOf(c), cmd)
    ensures Live(Process(c, cmd).circuit)
    ensures ViewOf(Process(c, cmd).circuit) ==
            if Process(c, cmd).outcome.Accepted? then Effect(ViewOf(c), cmd) else ViewOf(c)
  {
    KindsOfCommands(cmd, cmd);
    assert Good(c) && c.Wf();
    hide Process, Live, Good, Abs, Session.Guard, Session.Effect, Session.Assumed, Session.IsRequest,
         Session.IsResponse, PhaseStep, PriorityFits, Circuit.Wf;
    if cmd.kind.ForChannel() {
      ChannelCommandKeepsPhases(c, cmd);
      Refines(c, cmd);
      if !Process(c, cmd).outcome.Accepted? {
        RefusalKeepsSession(c, cmd);
      }
    } else {
      CircuitCommandRefines(c, cmd);
    }
  }

  lemma GuardAssumesView(v: View, cmd: Command)
    requires Guard(v, cmd)
    ensures Assumed(v, cmd) && !Unprompted(v.phases, cmd.kind)
  {
    hide Session.Guard, Session.Assumed;
    if cmd.kind.ForChannel() {
      GuardAssumes(v.session, cmd);
    }
  }

  // ----- the other steps of a circuit

  lemma UnaskedAbs(c: Circuit, cid: nat)
    requires c.Wf() && cid !in c.channels && NewChannel(c, cid).Wf()
    ensures AbsChans(NewChannel(c, cid)) == AbsChans(c)
  {
    var c1 := NewChannel(c, cid);
    assert forall k <- c.channels ::
             c1.channels[k] == c.channels[k] && c1.store[c.channels[k]] == c.store[c.channels[k]];
    assert AbsChans(c1).Keys == AbsChans(c).Keys;
  }

  lemma ConstructKeepsView(c: Circuit, cid: nat)
    requires Live(c) && cid !in c.channels
    ensures NewChannel(c, cid).Wf() && Live(NewChannel(c, cid))
    ensures ViewOf(NewChannel(c, cid)) == ViewOf(c)
  {
    GoodStep(c, Create(cid));
    var c1 := NewChannel(c, cid);
    assert NoEarlyRights(c1);
    assert c.Wf() && c1.Wf();
    hide Good, NoEarlyRights, AbsTable, AbsChans, Circuit.Wf;
    SamePlaces(c, c1);
    UnaskedAbs(c, cid);
  }

  /** The confirmation of a pending cancel, as the server sends it. */
  predicate ConfirmsPending(c: Circuit, r: Command) {
    r.kind.EventCancelResponse? && r.SubscriptionId() in c.eventCancels
  }

  /** Sending the confirmation of a cancel does to the server's view what receiving it
      does to the client's. */
  lemma SendConfirmation(c: Circuit, r: Command)
    requires Live(c) && ConfirmsPending(c, r)
    ensures Live(Process(c, r).circuit)
    ensures Process(c, r).outcome.Accepted? ==> Guard(ViewOf(c), OnWire(r))
    ensures ViewOf(Process(c, r).circuit) ==
            if Process(c, r).outcome.Accepted? then Effect(ViewOf(c), OnWire(r)) else ViewOf(c)
  {
    assert Good(c) && c.Wf() && r.kind.ForChannel() && OnWire(r).kind.ForChannel();
    assert Session.Assumed(Abs(c), r);
    hide Process, Live, Good, Abs, Session.Guard, Session.Effect, Session.Assumed, Circuit.Wf, OnWire, ConfirmsPending;
    ProcessKeepsLive(c, r);
    ChannelCommandKeepsPhases(c, r);
    if Process(c, r).outcome.Accepted? {
      ConfirmationAccepted(c, r);
    } else {
      ConfirmationRefused(c, r);
    }
  }

  predicate Accepts(c: Circuit, cmd: Command)
    requires c.Wf()
  {
    Process(c, cmd).outcome.Accepted?
  }

  ghost predicate HasSessionEffect(c: Circuit, r: Command)
    requires c.Wf()
  {
    Process(c, r).circuit.Wf() && Abs(Process(c, r).circuit) == Session.Effect(Abs(c), OnWire(r))
  }

  lemma ConfirmationAccepted(c: Circuit, r: Command)
    requires Live(c) && ConfirmsPending(c, r) && Accepts(c, r)
    ensures Session.Guard(Abs(c), OnWire(r)) && HasSessionEffect(c, r)
  {
    assert CancelsAgree(c) && Good(c) && r.SubscriptionId() in c.eventAdds && c.Wf();
    assert Session.IsResponse(OnWire(r)) && Session.Assumed(Abs(c), OnWire(r));
    ConfirmationNamesSid(c, r);
    ConflationUndone(c, r);
    assert Process(c, OnWire(r)) == Process(c, r);
    hide Process, Live, Good, Abs, Session.Guard, Session.Effect, Session.Assumed, Session.IsResponse, Circuit.Wf,
         CancelsAgree, ConfirmsPending, OnWire;
    Refines(c, OnWire(r));
  }

  lemma ConfirmationNamesSid(c: Circuit, r: Command)
    requires Good(c) && r.kind.EventCancelResponse? && r.SubscriptionId() in c.eventAdds
    requires Accepts(c, r)
    ensures r.Sid() == c.eventAdds[r.SubscriptionId()].Sid() && r.KnownType()
  {
    assert Process(c, r) == ProcessForChannel(c, r);
    hide Good, ProcessForChannel;
    ProcessAsExpected(c, r);
  }

  lemma ConfirmationRefused(c: Circuit, r: Command)
    requires Live(c) && ConfirmsPending(c, r) && !Accepts(c, r)
    ensures Process(c, r).circuit.Wf() && Abs(Process(c, r).circuit) == Abs(c)
  {
    assert Process(c, r) == ProcessForChannel(c, r);
    hide Good, ProcessForChannel, Expect, Abs;
    ProcessAsExpected(c, r);
    ExpectedRefusal(c, r);
  }
}
