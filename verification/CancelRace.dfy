/** The race between a cancel request and the updates that are still on their way, over
    whole runs in which anything else may happen in between. */
module CancelRace {
  import opened Protocol
  import opened States
  import opened Circuit
  import opened LockStep
  import opened Expected
  import opened TablesKept
  import opened Runs

  /** The command is about subscription `id`. */
  predicate Names(cmd: Command, id: nat) {
    var kind := cmd.kind;
    (kind.EventAddRequest? || kind.EventAddResponse? || kind.EventCancelRequest? || kind.EventCancelResponse?)
    && cmd.SubscriptionId() == id
  }

  /** The command takes away the channel that is known by `sid`. */
  predicate Removes(c: Circuit, cmd: Command, sid: nat)
    requires c.Wf()
  {
    && (cmd.kind.ClearChannelResponse? || cmd.kind.ServerDisconnResponse?)
    && sid in c.channelsSid && c.store[c.channelsSid[sid]].cid == cmd.Cid()
  }

  /** Whatever happens, ids are fresh, the connection lasts, and the only commands about
      the subscription are responses of the kind that was asked for. */
  ghost predicate Undisturbed(c: Circuit, a: Action, id: nat, add: Command)
    requires c.Wf()
  {
    && !a.Lose? && FreshIds(c, a)
    && (a.Handle? && Names(a.cmd, id) ==> FitsSubscription(add, id, a.cmd))
    && (a.Handle? ==> !Removes(c, a.cmd, add.Sid()))
  }

  // ----- other commands leave a pending cancel alone

  /** The entries of one subscription are the same in `c1`, and its channel is still there. */
  predicate SameEntries(c: Circuit, c1: Circuit, id: nat, sid: nat) {
    && (id in c1.eventAdds <==> id in c.eventAdds)
    && (id in c1.eventCancels <==> id in c.eventCancels)
    && (id in c.eventAdds && id in c1.eventAdds ==> c1.eventAdds[id] == c.eventAdds[id])
    && (id in c.eventCancels && id in c1.eventCancels ==> c1.eventCancels[id] == c.eventCancels[id])
    && (sid in c.channelsSid ==> sid in c1.channelsSid)
  }

  lemma UseKeepsEntries(c: Circuit, cmd: Command, id: nat, sid: nat)
    requires c.Wf() && cmd.kind.NamesSid() && !Names(cmd, id)
    ensures SameEntries(c, ExpectedUse(c, cmd).circuit, id, sid)
  {
    hide Circuit.Wf;
  }

  lemma EventKeepsEntries(c: Circuit, cmd: Command, id: nat, sid: nat)
    requires c.Wf() && cmd.SubscriptionId() != id
    ensures SameEntries(c, ExpectedEvent(c, cmd).circuit, id, sid)
  {
    hide Circuit.Wf;
  }

  lemma CreateKeepsEntries(c: Circuit, cmd: Command, id: nat, sid: nat)
    requires c.Wf()
    ensures SameEntries(c, ExpectedCreate(c, cmd).circuit, id, sid)
  {
    hide Circuit.Wf;
  }

  lemma RemovalKeepsEntries(c: Circuit, ref: nat, cmd: Command, id: nat, sid: nat)
    requires Good(c) && cmd.Cid() in c.channels && ref == c.channels[cmd.Cid()]
    requires sid in c.channelsSid ==> c.store[c.channelsSid[sid]].cid != cmd.Cid()
    ensures SameEntries(c, ExpectedRemoval(c, ref, cmd).circuit, id, sid)
  {
    assert c.Wf() && Listed(c, ref) && SidEntry(c, ref) && c.store[ref].cid == cmd.Cid();
    assert sid in c.channelsSid ==> c.store[c.channelsSid[sid]].sid == Some(sid);
    hide Good, Circuit.Wf;
  }

  lemma ConnectKeepsEntries(c: Circuit, ref: nat, cmd: Command, id: nat, sid: nat)
    requires ref < |c.store|
    ensures SameEntries(c, ExpectedConnect(c, ref, cmd).circuit, id, sid)
  {}

  lemma ByCidKeepsEntries(c: Circuit, cmd: Command, id: nat, sid: nat)
    requires Good(c) && !Removes(c, cmd, sid) && cmd.kind.ForChannel()
    requires !cmd.kind.NamesSid() && !cmd.kind.ClosesIo() && !cmd.kind.CreateChanRequest?
    requires !cmd.kind.EventAddResponse? && !cmd.kind.EventCancelRequest? && !cmd.kind.EventCancelResponse?
    ensures SameEntries(c, ExpectedByCid(c, cmd).circuit, id, sid)
  {
    assert c.Wf();
    hide Good, Circuit.Wf, ExpectedConnect, ExpectedRemoval;
    if cmd.Cid() in c.channels {
      var ref := c.channels[cmd.Cid()];
      if cmd.kind.CreateChanResponse? {
        assert ref < |c.store| by { ListedRef(c, cmd.Cid()); }
        ConnectKeepsEntries(c, ref, cmd, id, sid);
      } else if cmd.kind.ClearChannelResponse? || cmd.kind.ServerDisconnResponse? {
        RemovalKeepsEntries(c, ref, cmd, id, sid);
      }
    }
  }

  lemma ListedRef(c: Circuit, cid: nat)
    requires c.Wf() && cid in c.channels
    ensures c.channels[cid] < |c.store|
  {}

  lemma ExpectKeepsEntries(c: Circuit, cmd: Command, id: nat, sid: nat)
    requires Good(c) && cmd.kind.ForChannel() && !Names(cmd, id) && !Removes(c, cmd, sid)
    ensures SameEntries(c, Expect(c, cmd).circuit, id, sid)
  {
    assert c.Wf();
    hide Good, Circuit.Wf, ExpectedUse, ExpectedEvent, ExpectedCreate, ExpectedByCid, Removes;
    if cmd.kind.NamesSid() {
      UseKeepsEntries(c, cmd, id, sid);
    } else if cmd.kind.ClosesIo() {
    } else if cmd.kind.EventCancelRequest? || cmd.kind.EventAddResponse? || cmd.kind.EventCancelResponse? {
      EventKeepsEntries(c, cmd, id, sid);
    } else if cmd.kind.CreateChanRequest? {
      CreateKeepsEntries(c, cmd, id, sid);
    } else {
      ByCidKeepsEntries(c, cmd, id, sid);
    }
  }

  /** Any other command, accepted or refused, leaves the subscription as it is. */
  lemma OthersKeepEntries(c: Circuit, a: Action, id: nat, sid: nat)
    requires Good(c) && !a.Lose? && FreshIds(c, a)
    requires a.Handle? ==> !Names(a.cmd, id) && !Removes(c, a.cmd, sid)
    ensures Good(Exec(c, a).circuit) && SameEntries(c, Exec(c, a).circuit, id, sid)
  {
    assert c.Wf();
    GoodStep(c, a);
    if a.Handle? {
      var meant := Transmute(c, a.cmd);
      assert !Names(meant, id) && !Removes(c, meant, sid) && (meant.kind.ForChannel() <==> a.cmd.kind.ForChannel());
      hide Good, ProcessForChannel, ProcessForCircuit, Removes, Names, Expect, Circuit.Wf;
      if meant.kind.ForChannel() {
        ProcessAsExpected(c, meant);
        ExpectKeepsEntries(c, meant, id, sid);
      } else {
        CircuitCommandKeepsTables(c, meant);
      }
    } else {
      hide Good, Circuit.Wf;
    }
  }

  // ----- the two situations of the subscription

  /** Its cancellation was confirmed: nothing is remembered of it. */
  ghost predicate Forgotten(c: Circuit, id: nat) {
    Good(c) && id !in c.eventAdds && id !in c.eventCancels
  }

  ghost predicate Pending(c: Circuit, id: nat, add: Command) {
    CancelPending(c, id) && c.eventAdds[id] == add
  }

  predicate Rejects(c: Circuit, a: Action)
    requires c.Wf()
  {
    Exec(c, a).outcome.Rejected?
  }

  lemma StepWhilePending(c: Circuit, a: Action, id: nat, add: Command)
    requires Pending(c, id, add) && Undisturbed(c, a, id, add)
    ensures var c1 := Exec(c, a).circuit;
            if a.Handle? && Names(a.cmd, id) && a.cmd.payloadSize == 0 then Forgotten(c1, id)
            else Pending(c1, id, add)
    ensures a.Handle? && Names(a.cmd, id) ==> !Rejects(c, a)
    ensures a.Handle? && Names(a.cmd, id) ==>
              (a.cmd.payloadSize == 0 <==> Transmute(c, a.cmd).kind.EventCancelResponse?)
  {
    GoodStep(c, a);
    if a.Handle? && Names(a.cmd, id) {
      hide Good, Process;
      if a.cmd.payloadSize == 0 {
        EmptyWhilePending(c, id, a.cmd);
      } else {
        DataWhilePending(c, id, a.cmd);
      }
    } else {
      OthersKeepEntries(c, a, id, add.Sid());
      hide Good, Exec;
    }
  }

  lemma StepWhenForgotten(c: Circuit, a: Action, id: nat, add: Command)
    requires Forgotten(c, id) && Undisturbed(c, a, id, add)
    ensures Forgotten(Exec(c, a).circuit, id)
    ensures a.Handle? && Names(a.cmd, id) ==>
              && (Rejects(c, a) <==> a.cmd.payloadSize > 0)
              && !Transmute(c, a.cmd).kind.EventCancelResponse?
  {
    GoodStep(c, a);
    if a.Handle? && Names(a.cmd, id) {
      AfterConfirmation(c, id, a.cmd);
      ForgottenStays(c, id, a.cmd);
      hide Good, Process;
    } else {
      OthersKeepEntries(c, a, id, add.Sid());
      hide Good, Exec;
    }
  }

  lemma ForgottenStays(c: Circuit, id: nat, cmd: Command)
    requires Good(c) && id !in c.eventAdds && id !in c.eventCancels
    requires cmd.kind.EventAddResponse? && cmd.SubscriptionId() == id
    ensures Process(c, cmd).circuit == c
  {
    ProcessAsExpected(c, cmd);
    hide ProcessForChannel, Good;
  }

  // ----- the race

  /** Step i is a response on the subscription. */
  predicate Responds(actions: seq<Action>, i: nat, id: nat)
    requires i < |actions|
  {
    actions[i].Handle? && Names(actions[i].cmd, id)
  }

  predicate EmptyAt(actions: seq<Action>, i: nat, id: nat)
    requires i < |actions|
  {
    Responds(actions, i, id) && actions[i].cmd.payloadSize == 0
  }

  /** There was an empty response after step m and before step n. */
  predicate EmptyBefore(actions: seq<Action>, m: nat, n: nat, id: nat)
    requires n <= |actions|
  {
    exists i :: m < i < n && EmptyAt(actions, i, id)
  }

  /** A run in which step m requested the cancellation, and the subscription is not
      otherwise disturbed afterwards. */
  ghost predicate IsRace(states: seq<Circuit>, actions: seq<Action>, m: nat) {
    && IsRun(states, actions) && m < |actions| && Good(states[m])
    && actions[m].Handle? && actions[m].cmd.kind.EventCancelRequest?
    && Process(states[m], actions[m].cmd).outcome.Accepted?
    && var id := actions[m].cmd.SubscriptionId();
       && id in states[m].eventAdds
       && forall i | m < i < |actions| :: Undisturbed(states[i], actions[i], id, states[m].eventAdds[id])
  }

  lemma RaceBegins(states: seq<Circuit>, actions: seq<Action>, m: nat)
    requires IsRace(states, actions, m)
    ensures var id := actions[m].cmd.SubscriptionId();
            Pending(states[m + 1], id, states[m].eventAdds[id])
  {
    var c, q := states[m], actions[m].cmd;
    assert states[m + 1] == Process(c, q).circuit;
    CancelRequestAccepted(c, q);
    CancelKeepsAdds(c, q);
    hide Good, Process, Undisturbed;
  }

  lemma CancelKeepsAdds(c: Circuit, q: Command)
    requires Good(c) && q.kind.EventCancelRequest?
    ensures Process(c, q).circuit.eventAdds == c.eventAdds
  {
    ProcessAsExpected(c, q);
    hide ProcessForChannel, Good;
  }

  /** After step m nothing disturbs the subscription. */
  ghost predicate GoesOn(states: seq<Circuit>, actions: seq<Action>, m: nat, id: nat, add: Command) {
    && IsRun(states, actions) && m < |actions|
    && forall i | m < i < |actions| :: Undisturbed(states[i], actions[i], id, add)
  }

  ghost predicate InSituation(c: Circuit, id: nat, add: Command, emptyBefore: bool) {
    if emptyBefore then Forgotten(c, id) else Pending(c, id, add)
  }

  /** Until the first empty response the cancellation is pending, and from then on the
      subscription is forgotten. */
  lemma {:induction false} Situation(
      states: seq<Circuit>, actions: seq<Action>, m: nat, n: nat, id: nat, add: Command)
    requires GoesOn(states, actions, m, id, add) && m < n < |states| && Pending(states[m + 1], id, add)
    ensures InSituation(states[n], id, add, EmptyBefore(actions, m, n, id))
  {
    hide *;
    GoesOnLength(states, actions, m, id, add);
    if n == m + 1 {
      NothingBefore(actions, m, id);
      StillPending(states[n], id, add);
    } else {
      var c, a := states[n - 1], actions[n - 1];
      NextUndisturbed(states, actions, m, n - 1, id, add);
      Situation(states, actions, m, n - 1, id, add);
      OneMoreStep(actions, m, n - 1, id);
      SituationStep(c, a, id, add, EmptyBefore(actions, m, n - 1, id), EmptyAt(actions, n - 1, id));
    }
  }

  lemma GoesOnLength(states: seq<Circuit>, actions: seq<Action>, m: nat, id: nat, add: Command)
    requires GoesOn(states, actions, m, id, add)
    ensures |states| == |actions| + 1 && m < |actions|
  {
    hide Undisturbed, Exec;
  }

  lemma NextUndisturbed(
      states: seq<Circuit>, actions: seq<Action>, m: nat, n: nat, id: nat, add: Command)
    requires GoesOn(states, actions, m, id, add) && m < n < |actions|
    ensures |states| == |actions| + 1 && states[n].Wf() && Undisturbed(states[n], actions[n], id, add)
    ensures states[n + 1] == Exec(states[n], actions[n]).circuit
  {
    hide Undisturbed, Exec, Circuit.Wf;
  }

  lemma StillPending(c: Circuit, id: nat, add: Command)
    requires Pending(c, id, add)
    ensures InSituation(c, id, add, false)
  {
    hide Pending;
  }

  lemma NothingBefore(actions: seq<Action>, m: nat, id: nat)
    requires m < |actions|
    ensures !EmptyBefore(actions, m, m + 1, id)
  {}

  lemma OneMoreStep(actions: seq<Action>, m: nat, n: nat, id: nat)
    requires m < n < |actions|
    ensures EmptyBefore(actions, m, n + 1, id) <==> EmptyBefore(actions, m, n, id) || EmptyAt(actions, n, id)
    ensures EmptyAt(actions, n, id) <==>
              actions[n].Handle? && Names(actions[n].cmd, id) && actions[n].cmd.payloadSize == 0
  {
    hide Names;
  }

  lemma SituationStep(c: Circuit, a: Action, id: nat, add: Command, before: bool, now: bool)
    requires c.Wf() && Undisturbed(c, a, id, add)
    requires InSituation(c, id, add, before)
    requires now <==> a.Handle? && Names(a.cmd, id) && a.cmd.payloadSize == 0
    ensures InSituation(Exec(c, a).circuit, id, add, before || now)
  {
    hide Pending, Forgotten, Undisturbed, Exec, Names;
    if before {
      StepWhenForgotten(c, a, id, add);
    } else {
      StepWhilePending(c, a, id, add);
    }
  }

  /** No response with data comes after an empty one. */
  predicate DataComesFirst(actions: seq<Action>, m: nat, id: nat) {
    forall i, j | m < i < j < |actions| && EmptyAt(actions, i, id) && Responds(actions, j, id) ::
      EmptyAt(actions, j, id)
  }

  /** What one step of the race does. */
  ghost predicate StepAsExpected(states: seq<Circuit>, actions: seq<Action>, m: nat, j: nat, id: nat)
    requires IsRun(states, actions) && m < j < |actions|
  {
    && (Responds(actions, j, id) ==>
          (Rejects(states[j], actions[j]) <==> EmptyBefore(actions, m, j, id) && !EmptyAt(actions, j, id)))
    && (Confirms(states, actions, j, id) <==> EmptyAt(actions, j, id) && !EmptyBefore(actions, m, j, id))
  }

  lemma RaceStep(states: seq<Circuit>, actions: seq<Action>, m: nat, j: nat, id: nat, add: Command)
    requires GoesOn(states, actions, m, id, add) && m < j < |actions| && Pending(states[m + 1], id, add)
    ensures StepAsExpected(states, actions, m, j, id)
  {
    var c, a := states[j], actions[j];
    assert Undisturbed(c, a, id, add) && c.Wf() && IsRun(states, actions);
    assert a.Handle? && Names(a.cmd, id) ==> FitsSubscription(add, id, a.cmd) && a.cmd.kind.EventAddResponse?;
    Situation(states, actions, m, j, id, add);
    ConfirmsNames(states, actions, j, id);
    hide GoesOn, Pending, Forgotten, Undisturbed, FitsSubscription, IsRun, Process, EmptyBefore, Names, Rejects;
    if EmptyBefore(actions, m, j, id) {
      StepWhenForgotten(c, a, id, add);
    } else {
      StepWhilePending(c, a, id, add);
      if Responds(actions, j, id) && EmptyAt(actions, j, id) {
        EmptyIsAccepted(c, id, add, a.cmd);
      }
    }
  }

  lemma ConfirmsNames(states: seq<Circuit>, actions: seq<Action>, j: nat, id: nat)
    requires IsRun(states, actions) && j < |actions|
    ensures Confirms(states, actions, j, id) ==> Responds(actions, j, id)
  {
    hide Process;
  }

  lemma EmptyIsAccepted(c: Circuit, id: nat, add: Command, cmd: Command)
    requires Pending(c, id, add) && FitsSubscription(add, id, cmd) && cmd.payloadSize == 0
    ensures Process(c, cmd).outcome.Accepted?
  {
    EmptyWhilePending(c, id, cmd);
    hide Process, Good;
  }

  /** The cancel race over runs. After the cancel request any commands about other things
      may come in between, accepted or refused. No response on the subscription raises an
      error exactly when none with data follows an empty one; and the confirmation is the
      first empty response, and no other step. */
  lemma RaceOverRuns(states: seq<Circuit>, actions: seq<Action>, m: nat)
    requires IsRace(states, actions, m)
    ensures var id := actions[m].cmd.SubscriptionId();
            && ((forall j | m < j < |actions| && Responds(actions, j, id) :: !Rejects(states[j], actions[j]))
                <==> DataComesFirst(actions, m, id))
            && (forall j | m < j < |actions| ::
                  Confirms(states, actions, j, id) <==>
                  EmptyAt(actions, j, id) && !EmptyBefore(actions, m, j, id))
            && (forall i, j | m < i < j < |actions| ::
                  !(Confirms(states, actions, i, id) && Confirms(states, actions, j, id)))
  {
    var id := actions[m].cmd.SubscriptionId();
    var add := states[m].eventAdds[id];
    RaceBegins(states, actions, m);
    assert GoesOn(states, actions, m, id, add) && IsRun(states, actions);
    hide IsRace, GoesOn, Pending, Rejects, Confirms, Responds, EmptyAt, Exec, Circuit.Wf;
    forall j | m < j < |actions|
      ensures StepAsExpected(states, actions, m, j, id)
    {
      RaceStep(states, actions, m, j, id, add);
    }
    StepsDecide(states, actions, m, id);
  }

  lemma StepsDecide(states: seq<Circuit>, actions: seq<Action>, m: nat, id: nat)
    requires IsRun(states, actions) && m < |actions|
    requires forall j | m < j < |actions| :: StepAsExpected(states, actions, m, j, id)
    ensures (forall j | m < j < |actions| && Responds(actions, j, id) :: !Rejects(states[j], actions[j]))
            <==> DataComesFirst(actions, m, id)
    ensures forall j | m < j < |actions| ::
              Confirms(states, actions, j, id) <==> EmptyAt(actions, j, id) && !EmptyBefore(actions, m, j, id)
    ensures forall i, j | m < i < j < |actions| ::
              !(Confirms(states, actions, i, id) && Confirms(states, actions, j, id))
  {
    assert |states| == |actions| + 1 && forall j | 0 <= j < |states| :: states[j].Wf();
    hide IsRun, Rejects, Confirms, Names, Circuit.Wf;
    forall j | m < j < |actions|
      ensures Responds(actions, j, id) ==>
                (Rejects(states[j], actions[j]) <==> EmptyBefore(actions, m, j, id) && !EmptyAt(actions, j, id))
      ensures Confirms(states, actions, j, id) <==> EmptyAt(actions, j, id) && !EmptyBefore(actions, m, j, id)
    {
      assert StepAsExpected(states, actions, m, j, id);
    }
    hide StepAsExpected;
  }
}
