/** What a circuit that has lost its connection answers to channel commands. */
module DownCircuit {
  import opened Protocol
  import opened States
  import opened Circuit
  import opened LockStep
  import opened Expected
  import opened TablesKept
  import opened Runs

  /** Closed by the loss, or made afterwards. */
  predicate SettledChannel(p: ChannelPhases) {
    p == FRESH_CHANNEL || p == Pair(Closed, Closed) || p == Pair(Closed, Idle)
  }

  ghost predicate Settled(c: Circuit) {
    c.Wf() && c.phases == DOWN && forall i | 0 <= i < |c.store| :: SettledChannel(c.store[i].phases)
  }

  /** Losing the connection settles a circuit whose ids were fresh. */
  lemma LossSettles(c: Circuit)
    requires Good(c)
    ensures Settled(Disconnect(c))
  {
    forall i | 0 <= i < |c.store|
      ensures SettledChannel(Disconnect(c).store[i].phases)
    {
      assert InLockStep(Coupled(c.store[i].phases, c.phases));
      assert Listed(c, i) || c.store[i].phases.client.Closed?;
      assert Listed(c, i) ==> i in c.channels.Values;
      ClosingSettles(c.store[i].phases);
      hide Good, Update, MatchedChannel, Listed;
    }
  }

  lemma ClosingSettles(p: ChannelPhases)
    requires MatchedChannel(p)
    ensures SettledChannel(Update(Coupled(p, DOWN)).channel)
    ensures p.client.Closed? ==> SettledChannel(p)
  {}

  /** The only channel command that a settled channel accepts is, at a client, the request
      to create it. */
  lemma SettledStep(p: ChannelPhases, ours: Role, kind: Kind)
    requires SettledChannel(p) && kind.ForChannel()
    ensures var s := StepBothRoles(Coupled(p, DOWN), ours, kind);
            && s.state.circuit == DOWN && SettledChannel(s.state.channel)
            && (s.error.None? <==> ours.Client? && p == FRESH_CHANNEL && kind.CreateChanRequest?)
            && (s.error.Some? ==> s.error.value.IsProtocolError())
  {
    SettledRole(p, ours, kind);
    var first := StepRole(Coupled(p, DOWN), ours, kind);
    if first.Some? {
      SettledRole(first.value.channel, ours.Other(), kind);
    }
    hide StepRole, Kind.ForChannel;
  }

  /** One role: a fresh channel is closed on being asked for, and a closed one accepts only
      what its table still lists. */
  lemma SettledRole(p: ChannelPhases, role: Role, kind: Kind)
    requires SettledChannel(p) && kind.ForChannel()
    ensures StepRole(Coupled(p, DOWN), role, kind) ==
            if kind.CreateChanRequest? && p == FRESH_CHANNEL then
              Some(Coupled(if role.Client? then Pair(Closed, Idle) else Pair(Closed, Closed), DOWN))
            else if kind.CreateChanRequest? && p.server.Idle? && role.Server? then
              Some(Coupled(Pair(Closed, Closed), DOWN))
            else if kind.EventCancelResponse? && p.client.Closed? && role.Client? then
              Some(Coupled(p, DOWN))
            else None
  {}

  lemma SettledStepChannel(c: Circuit, ref: nat, cmd: Command)
    requires Settled(c) && ref < |c.store| && cmd.kind.ForChannel()
    ensures Settled(StepChannel(c, ref, cmd).circuit)
    ensures StepChannel(c, ref, cmd).error.None? ==> cmd.kind.CreateChanRequest?
    ensures var error := StepChannel(c, ref, cmd).error;
            error.Some? ==> (!error.value.IsProtocolError() <==> cmd.kind.CreateChanResponse? && !cmd.KnownType())
  {
    SettledStep(c.store[ref].phases, c.ours, cmd.kind);
    StepChannelKeeps(c, ref, cmd);
    hide StepBothRoles, Kind.ForChannel, SettledChannel;
    var c1 := StepChannel(c, ref, cmd).circuit;
    assert forall i | 0 <= i < |c1.store| && i != ref :: c1.store[i] == c.store[i];
    assert Settled(c1) && Coupled(c.store[ref].phases, c.phases) == Coupled(c.store[ref].phases, DOWN);
    hide Settled, Circuit.Wf;
  }

  predicate IsStray(r: Result) {
    r.outcome.Rejected? && !r.outcome.error.IsProtocolError()
  }

  lemma IdentifySettled(c: Circuit, cmd: Command)
    requires Settled(c)
    ensures match Identify(c, cmd)
            case Found(c1, ref) => Settled(c1) && ref < |c1.store| && c1.eventAdds == c.eventAdds && c1.ours == c.ours
            case _ => true
  {
    IdentifyKeeps(c, cmd);
    IdentifyOnAdds(c, cmd);
    hide Identify, Circuit.Wf;
  }

  /** Finding the channel, checking the subscription or reading the native type fails with
      something other than a protocol error. */
  predicate StrayTarget(c: Circuit, cmd: Command) {
    var id := cmd.SubscriptionId();
    var kind := cmd.kind;
    if kind.EventCancelRequest? || kind.EventAddResponse? || kind.EventCancelResponse? then
      if id in c.eventAdds then c.eventAdds[id].Sid() !in c.channelsSid || !TypesKnown(c, cmd)
      else kind.EventCancelResponse?
    else if kind.CreateChanRequest? then
      cmd.Cid() !in c.channels && !cmd.nameParses
    else if kind.NamesSid() || kind.ClosesIo() then
      false
    else
      cmd.Cid() !in c.channels || (kind.CreateChanResponse? && !cmd.KnownType())
  }

  /** The exact condition on a settled circuit. Compared with a circuit that is up, no
      table entry is removed any more, so that no removal can fail. */
  predicate RaisesStrayWhileDown(c: Circuit, cmd: Command) {
    var meant := Transmute(c, cmd);
    (meant != cmd && !cmd.KnownType()) || StrayTarget(c, meant)
  }

  lemma TargetErrors(c: Circuit, cmd: Command)
    requires cmd.kind.ForChannel()
    ensures match Identify(c, cmd)
            case Dropped => !StrayTarget(c, cmd)
            case Missing(error) => !error.IsProtocolError() <==> StrayTarget(c, cmd)
            case Found(c1, ref) =>
              c1.eventAdds == c.eventAdds ==>
                match SubscriptionError(c1, cmd)
                case Some(error) => !error.IsProtocolError() <==> StrayTarget(c, cmd)
                case None => StrayTarget(c, cmd) <==> cmd.kind.CreateChanResponse? && !cmd.KnownType()
  {}

  lemma ForChannelWhileDown(c: Circuit, cmd: Command)
    requires Settled(c) && cmd.kind.ForChannel()
    ensures Settled(ProcessForChannel(c, cmd).circuit)
    ensures IsStray(ProcessForChannel(c, cmd)) <==> StrayTarget(c, cmd)
  {
    IdentifySettled(c, cmd);
    TargetErrors(c, cmd);
    hide Identify, SubscriptionError, StepChannel, Settled, StrayTarget, Kind.ForChannel;
    match Identify(c, cmd) {
      case Found(c1, ref) =>
        SettledStepChannel(c1, ref, cmd);
      case _ =>
    }
  }

  /** With the connection lost, exactly these channel commands raise something other than a
      protocol error; the circuit stays settled. */
  lemma StrayErrorsWhileDown(c: Circuit, cmd: Command)
    requires Settled(c) && cmd.kind.ForChannel()
    ensures IsStray(Process(c, cmd)) <==> RaisesStrayWhileDown(c, cmd)
    ensures Settled(Process(c, cmd).circuit)
  {
    var meant := Transmute(c, cmd);
    assert meant.kind.ForChannel();
    ForChannelWhileDown(c, meant);
    hide ProcessForChannel, Settled, StrayTarget;
  }

  lemma StaysSettled(c: Circuit, a: Action)
    requires Settled(c)
    ensures Settled(Exec(c, a).circuit)
  {
    match a {
      case Create(cid) =>
      case Handle(cmd) =>
        if cmd.kind.ForChannel() {
          StrayErrorsWhileDown(c, cmd);
        } else {
          assert Process(c, cmd) == ProcessForCircuit(c, cmd);
          ProcessForCircuitEffect(c, cmd);
        }
        hide Process, Settled;
      case Lose => LosingAgain(c);
    }
  }

  lemma LosingAgain(c: Circuit)
    requires Settled(c)
    ensures Settled(Disconnect(c))
  {
    forall i | 0 <= i < |c.store|
      ensures SettledChannel(Disconnect(c).store[i].phases)
    {
      assert SettledChannel(c.store[i].phases);
    }
  }

  /** Over runs: after the loss of a connection whose ids were fresh, the circuit is settled
      for ever, so that the condition above is exact in every later state. */
  lemma {:induction false} SettledEverAfter(states: seq<Circuit>, actions: seq<Action>, m: nat, n: nat)
    requires IsRun(states, actions) && m < n < |states| && Good(states[0])
    requires forall i | 0 <= i < m :: !actions[i].Lose? && FreshIds(states[i], actions[i])
    requires actions[m].Lose?
    ensures Settled(states[n])
    decreases n
  {
    if n == m + 1 {
      RunsKeepTables(states, actions, m);
      assert states[n] == Disconnect(states[m]);
      hide Good, Settled, Exec, FreshIds;
      LossSettles(states[m]);
    } else {
      assert states[n] == Exec(states[n - 1], actions[n - 1]).circuit;
      hide Good, Settled, Exec, FreshIds;
      SettledEverAfter(states, actions, m, n - 1);
      StaysSettled(states[n - 1], actions[n - 1]);
    }
  }
}
