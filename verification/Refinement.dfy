/** A circuit whose ids were fresh behaves, command by command, like the session it
    stands for: it accepts exactly what the session's guards allow. */
module Refinement {
  import opened Protocol
  import opened States
  import opened Circuit
  import opened LockStep
  import opened Expected
  import opened TablesKept
  import opened Runs
  import opened Session

  function ChanOf(ch: Channel): Chan {
    Chan(ch.phases.client, ch.sid, ch.accessRights)
  }

  function AbsChans(c: Circuit): map<nat, Chan>
    requires c.Wf()
  {
    map cid | cid in c.channels && !Phase(c, c.channels[cid]).SendCreateChanRequest?
      :: ChanOf(c.store[c.channels[cid]])
  }

  function AbsTable(c: Circuit, table: map<nat, nat>): map<nat, nat>
    requires forall key <- table :: table[key] < |c.store|
  {
    map key | key in table :: c.store[table[key]].cid
  }

  /** The session a circuit stands for. A channel object that was never asked for is not
      part of it. */
  function Abs(c: Circuit): Session
    requires c.Wf()
  {
    Session(AbsChans(c), AbsTable(c, c.channelsSid), AbsTable(c, c.ioids),
            c.eventAdds, c.eventCancels.Keys)
  }

  ghost predicate CancelsAgree(c: Circuit) {
    forall id <- c.eventCancels :: id in c.eventAdds && c.eventCancels[id] == c.eventAdds[id]
  }

  ghost predicate NoEarlyRights(c: Circuit) {
    forall ref | 0 <= ref < |c.store| && Phase(c, ref).SendCreateChanRequest? ::
      c.store[ref].accessRights.None?
  }

  /** A good circuit that recorded each cancel for the subscription it was meant for, and
      set no access rights on a channel nobody asked for. */
  ghost predicate Live(c: Circuit) {
    c.Wf() && Good(c) && CancelsAgree(c) && NoEarlyRights(c)
  }

  /** `r` accepts what the session's guard allows. */
  ghost predicate AcceptsByGuard(c: Circuit, cmd: Command, r: Result)
    requires c.Wf()
  {
    r.outcome.Accepted? && Assumed(Abs(c), cmd) <==> Guard(Abs(c), cmd)
  }

  /** `r` has the session's effect. */
  ghost predicate HasEffect(c: Circuit, cmd: Command, r: Result)
    requires c.Wf()
  {
    r.circuit.Wf() && Abs(r.circuit) == Effect(Abs(c), cmd)
  }

  lemma SidFacts(c: Circuit, sid: nat)
    requires Good(c) && sid in c.channelsSid
    ensures var ref := c.channelsSid[sid];
            && ref < |c.store|
            && Abs(c).sids[sid] == c.store[ref].cid
            && c.store[ref].cid in c.channels && c.channels[c.store[ref].cid] == ref
            && c.store[ref].cid in Abs(c).chans
            && Abs(c).chans[c.store[ref].cid] == ChanOf(c.store[ref])
            && IsOpen(c.store[ref])
  {}

  lemma CidFacts(c: Circuit, cid: nat)
    requires Good(c)
    ensures cid in Abs(c).chans ==>
              cid in c.channels && Abs(c).chans[cid] == ChanOf(c.store[c.channels[cid]])
    ensures cid in c.channels ==>
              var ref := c.channels[cid];
              && c.store[ref].cid == cid && SidEntry(c, ref)
              && (cid in Abs(c).chans <==> !Phase(c, ref).SendCreateChanRequest?)
              && MatchedChannel(c.store[ref].phases)
  {
    if cid in c.channels {
      KeepPhases(c, c.channels[cid]);
    }
  }

  lemma SameChans(c: Circuit, c1: Circuit)
    requires c.Wf() && c1.Wf() && c1.store == c.store
    requires c1.channels == c.channels && c1.channelsSid == c.channelsSid
    ensures AbsChans(c1) == AbsChans(c)
    ensures AbsTable(c1, c1.channelsSid) == AbsTable(c, c.channelsSid)
    ensures c1.ioids == c.ioids ==> AbsTable(c1, c1.ioids) == AbsTable(c, c.ioids)
  {}

  // ----- requests that name a sid

  lemma UseAccepted(c: Circuit, cmd: Command)
    requires Live(c) && cmd.kind.NamesSid()
    ensures AcceptsByGuard(c, cmd, ExpectedUse(c, cmd))
    ensures ExpectedUse(c, cmd).outcome.Accepted? <==> Usable(Abs(c), cmd.Sid())
  {
    UseForm(Abs(c), cmd);
    hide Guard, Effect, Assumed;
    if cmd.Sid() in c.channelsSid {
      SidFacts(c, cmd.Sid());
    }
    assert c.Wf();
    hide Good, Live, Circuit.Wf, AbsChans;
  }

  lemma EntryAbs(c: Circuit, table: map<nat, nat>, key: nat, ref: nat)
    requires ref < |c.store| && forall k <- table :: table[k] < |c.store|
    ensures var added := table[key := ref];
            && (forall k <- added :: added[k] < |c.store|)
            && AbsTable(c, added) == AbsTable(c, table)[key := c.store[ref].cid]
  {}

  lemma OpenIoAbs(c: Circuit, ref: nat, ioid: nat)
    requires c.Wf() && ref < |c.store|
    ensures OpenIo(c, ref, ioid).circuit.Wf()
    ensures Abs(OpenIo(c, ref, ioid).circuit) ==
            Abs(c).(ioids := AbsTable(c, c.ioids)[ioid := c.store[ref].cid])
  {
    var c1 := OpenIo(c, ref, ioid).circuit;
    SameChans(c, c1);
    EntryAbs(c, c.ioids, ioid, ref);
    hide AbsChans;
    assert AbsTable(c1, c1.ioids) == AbsTable(c, c1.ioids);
    hide AbsTable;
  }

  lemma CloseIoAbs(c: Circuit, ioid: nat)
    requires c.Wf()
    ensures c.(ioids := c.ioids - {ioid}).Wf()
    ensures Abs(c.(ioids := c.ioids - {ioid})) == Abs(c).(ioids := AbsTable(c, c.ioids) - {ioid})
  {
    var c1 := c.(ioids := c.ioids - {ioid});
    SameChans(c, c1);
    assert AbsTable(c1, c1.ioids) == AbsTable(c, c.ioids) - {ioid};
  }

  lemma SubscriptionsAbs(c: Circuit, adds: map<nat, Command>, cancels: map<nat, Command>)
    requires c.Wf()
    ensures c.(eventAdds := adds, eventCancels := cancels).Wf()
    ensures Abs(c.(eventAdds := adds, eventCancels := cancels)) == Abs(c).(adds := adds, cancels := cancels.Keys)
  {
    SameChans(c, c.(eventAdds := adds, eventCancels := cancels));
  }

  lemma UseFollowed(c: Circuit, cmd: Command)
    requires Live(c) && cmd.kind.NamesSid() && Usable(Abs(c), cmd.Sid())
    ensures HasEffect(c, cmd, ExpectedUse(c, cmd))
  {
    UseForm(Abs(c), cmd);
    SidFacts(c, cmd.Sid());
    OpenIoAbs(c, c.channelsSid[cmd.Sid()], cmd.Ioid());
    SubscriptionsAbs(c, c.eventAdds[cmd.SubscriptionId() := cmd], c.eventCancels);
    assert c.Wf();
    hide Guard, Effect, Assumed, Good, Live, AbsChans, AbsTable, OpenIo, Circuit.Wf;
  }

  lemma AnswerMatches(c: Circuit, cmd: Command)
    requires Live(c) && cmd.kind.ClosesIo()
    ensures AcceptsByGuard(c, cmd, ExpectedAnswer(c, cmd))
    ensures Guard(Abs(c), cmd) ==> HasEffect(c, cmd, ExpectedAnswer(c, cmd))
  {
    AnswerForm(Abs(c), cmd);
    CloseIoAbs(c, cmd.Ioid());
    assert c.Wf() && AbsTable(c, c.ioids).Keys == c.ioids.Keys;
    hide Guard, Effect, Assumed, Good, Live, AbsChans, AbsTable, Circuit.Wf;
  }

  // ----- subscriptions

  lemma CancelMatches(c: Circuit, cmd: Command)
    requires Live(c) && cmd.kind.EventCancelRequest?
    ensures AcceptsByGuard(c, cmd, ExpectedEvent(c, cmd))
    ensures Guard(Abs(c), cmd) ==> HasEffect(c, cmd, ExpectedEvent(c, cmd))
  {
    CancelForm(Abs(c), cmd);
    assert c.Wf();
    var id := cmd.SubscriptionId();
    if id in c.eventAdds {
      var cancels := c.eventCancels[id := c.eventAdds[id]];
      assert cancels.Keys == c.eventCancels.Keys + {id};
      SubscriptionsAbs(c, c.eventAdds, cancels);
      if c.eventAdds[id].Sid() in c.channelsSid {
        SidFacts(c, c.eventAdds[id].Sid());
      }
    }
    hide Guard, Effect, Assumed, Good, Live, AbsChans, Circuit.Wf;
  }

  lemma ConfirmationAbs(c: Circuit, id: nat)
    requires c.Wf()
    ensures Unsubscribed(c, id).Wf()
    ensures Abs(Unsubscribed(c, id)) == Abs(c).(adds := c.eventAdds - {id}, cancels := c.eventCancels.Keys - {id})
  {
    SubscriptionsAbs(c, c.eventAdds - {id}, c.eventCancels - {id});
  }

  lemma SidKeysAbs(c: Circuit)
    requires c.Wf()
    ensures Abs(c).sids.Keys == c.channelsSid.Keys
  {}

  lemma UpdateMatches(c: Circuit, cmd: Command)
    requires Live(c) && cmd.kind.EventAddResponse?
    ensures AcceptsByGuard(c, cmd, ExpectedEvent(c, Transmute(c, cmd)))
    ensures Guard(Abs(c), cmd) ==> HasEffect(c, cmd, ExpectedEvent(c, Transmute(c, cmd)))
  {
    assert c.Wf() && CancelsAgree(c) && Good(c);
    hide Live, Good;
    if cmd.payloadSize == 0 {
      EmptyMatches(c, cmd);
    } else {
      DataMatches(c, cmd);
    }
    hide AcceptsByGuard, HasEffect, Guard, Effect, ExpectedEvent;
  }

  lemma EmptyMatches(c: Circuit, cmd: Command)
    requires c.Wf() && CancelsAgree(c) && cmd.kind.EventAddResponse? && cmd.payloadSize == 0
    ensures AcceptsByGuard(c, cmd, ExpectedEvent(c, Transmute(c, cmd)))
    ensures Guard(Abs(c), cmd) ==> HasEffect(c, cmd, ExpectedEvent(c, Transmute(c, cmd)))
  {
    SidKeysAbs(c);
    hide Guard, Effect, Assumed, Circuit.Wf;
    UpdateForm(Abs(c), cmd);
    ConfirmationAbs(c, cmd.SubscriptionId());
    hide AbsChans, AbsTable;
  }

  lemma DataMatches(c: Circuit, cmd: Command)
    requires c.Wf() && cmd.kind.EventAddResponse? && cmd.payloadSize > 0
    ensures AcceptsByGuard(c, cmd, ExpectedEvent(c, Transmute(c, cmd)))
    ensures Guard(Abs(c), cmd) ==> HasEffect(c, cmd, ExpectedEvent(c, Transmute(c, cmd)))
  {
    SidKeysAbs(c);
    assert Transmute(c, cmd) == cmd;
    hide Guard, Effect, Assumed, Circuit.Wf, Transmute;
    UpdateForm(Abs(c), cmd);
    hide AbsChans, AbsTable;
  }

  // ----- channels

  /** `c1` is `c` with one channel changed, but not its cid. */
  ghost predicate ChangedAt(c: Circuit, c1: Circuit, ref: nat) {
    && c.Wf() && c1.Wf() && ref < |c.store| == |c1.store|
    && c1.store[ref].cid == c.store[ref].cid
    && forall i | 0 <= i < |c.store| && i != ref :: c1.store[i] == c.store[i]
  }

  lemma ChangeAbs(c: Circuit, c1: Circuit, ref: nat)
    requires ChangedAt(c, c1, ref) && c1.channels == c.channels
    requires forall cid <- c.channels :: c.channels[cid] == ref <==> cid == c.store[ref].cid
    requires c.store[ref].cid in c.channels && !Phase(c1, ref).SendCreateChanRequest?
    ensures AbsChans(c1) == AbsChans(c)[c.store[ref].cid := ChanOf(c1.store[ref])]
  {}

  lemma ChangeTables(c: Circuit, c1: Circuit, ref: nat)
    requires ChangedAt(c, c1, ref)
    ensures AbsTable(c1, c.channelsSid) == AbsTable(c, c.channelsSid)
    ensures AbsTable(c1, c.ioids) == AbsTable(c, c.ioids)
  {
    SamePlaces(c, c1);
  }

  lemma OnlyEntry(c: Circuit, ref: nat)
    requires Good(c) && ref < |c.store| && Listed(c, ref)
    ensures forall cid <- c.channels :: c.channels[cid] == ref <==> cid == c.store[ref].cid
  {}

  lemma SetPhasesAbs(c: Circuit, ref: nat, phases: ChannelPhases)
    requires Good(c) && ref < |c.store| && Listed(c, ref)
    requires !phases.client.SendCreateChanRequest?
    ensures SetPhases(c, ref, phases).Wf()
    ensures var cid := c.store[ref].cid;
            var chan := ChanOf(c.store[ref]).(phase := phases.client);
            Abs(SetPhases(c, ref, phases)) == Abs(c).(chans := AbsChans(c)[cid := chan])
  {
    var c1 := SetPhases(c, ref, phases);
    OnlyEntry(c, ref);
    assert ChangedAt(c, c1, ref);
    hide Good, AbsChans, AbsTable, ChangedAt;
    ChangeAbs(c, c1, ref);
    ChangeTables(c, c1, ref);
  }

  /** The tables that name channels by cid do not see what else a channel holds. */
  lemma SamePlaces(c: Circuit, c1: Circuit)
    requires c.Wf() && c1.Wf()
    requires |c.store| <= |c1.store| && forall i | 0 <= i < |c.store| :: c1.store[i].cid == c.store[i].cid
    ensures AbsTable(c1, c.channelsSid) == AbsTable(c, c.channelsSid)
    ensures AbsTable(c1, c.ioids) == AbsTable(c, c.ioids)
  {}

  lemma AskedAbs(c: Circuit, cid: nat)
    requires Good(c) && cid !in c.channels
    ensures var c2 := Asked(NewChannel(c, cid), |c.store|).circuit;
            && c2.Wf()
            && Abs(c2) == Abs(c).(chans := AbsChans(c)[cid := Chan(AwaitCreateChanResponse, None, None)])
  {
    var c2 := Asked(NewChannel(c, cid), |c.store|).circuit;
    assert c.Wf() && c2.Wf();
    hide Good, Circuit.Wf, AbsTable, AbsChans;
    SamePlaces(c, c2);
    AskedChans(c, c2, cid);
  }

  lemma AskedChans(c: Circuit, c2: Circuit, cid: nat)
    requires c.Wf() && c2.Wf() && cid !in c.channels
    requires c2.store == c.store + [FreshChannel(cid, c.version).(
               phases := Pair(AwaitCreateChanResponse, SendCreateChanResponse))]
    requires c2.channels == c.channels[cid := |c.store|]
    ensures AbsChans(c2) == AbsChans(c)[cid := Chan(AwaitCreateChanResponse, None, None)]
  {
    assert forall k <- c.channels ::
             c2.channels[k] == c.channels[k] && c2.store[c.channels[k]] == c.store[c.channels[k]];
    assert AbsChans(c2).Keys == AbsChans(c).Keys + {cid};
  }

  lemma CreateMatches(c: Circuit, cmd: Command)
    requires Live(c) && cmd.kind.CreateChanRequest?
    ensures AcceptsByGuard(c, cmd, ExpectedCreate(c, cmd))
    ensures Guard(Abs(c), cmd) ==> HasEffect(c, cmd, ExpectedCreate(c, cmd))
  {
    CreateForm(Abs(c), cmd);
    hide Guard, Effect, Assumed;
    var cid := cmd.Cid();
    CidFacts(c, cid);
    if cid in c.channels {
      var ref := c.channels[cid];
      SetPhasesAbs(c, ref, Pair(AwaitCreateChanResponse, SendCreateChanResponse));
      assert Phase(c, ref).SendCreateChanRequest? ==> c.store[ref].sid.None? && c.store[ref].accessRights.None?;
    } else {
      AskedAbs(c, cid);
    }
    hide Good, Live, SetPhases, AbsChans, AbsTable, Circuit.Wf;
  }

  // ----- responses that name a cid

  lemma FailMatches(c: Circuit, cmd: Command)
    requires Live(c) && (cmd.kind.CreateChFailResponse? || cmd.kind.ClearChannelRequest?)
    ensures AcceptsByGuard(c, cmd, ExpectedByCid(c, cmd))
    ensures Guard(Abs(c), cmd) ==> HasEffect(c, cmd, ExpectedByCid(c, cmd))
  {
    assert Good(c) && c.Wf();
    hide Guard, Effect, Assumed, Good, Live, SetPhases, AbsTable, Circuit.Wf, SidEntry, MatchedChannel;
    MoveForm(Abs(c), cmd);
    CidFacts(c, cmd.Cid());
    hide AbsChans;
    if cmd.Cid() in c.channels {
      if cmd.kind.CreateChFailResponse? {
        SetPhasesAbs(c, c.channels[cmd.Cid()], Pair(Failed, Failed));
      } else {
        SetPhasesAbs(c, c.channels[cmd.Cid()], Pair(MustClose, MustClose));
      }
    }
  }

  lemma SetRightsAbs(c: Circuit, ref: nat, rights: nat)
    requires Good(c) && ref < |c.store| && Listed(c, ref) && !Phase(c, ref).SendCreateChanRequest?
    ensures SetRights(c, ref, rights).circuit.Wf()
    ensures var chan := ChanOf(c.store[ref]).(rights := Some(rights));
            Abs(SetRights(c, ref, rights).circuit) == Abs(c).(chans := AbsChans(c)[c.store[ref].cid := chan])
  {
    var c1 := SetRights(c, ref, rights).circuit;
    OnlyEntry(c, ref);
    assert ChangedAt(c, c1, ref);
    hide Good, AbsChans, AbsTable, ChangedAt;
    ChangeAbs(c, c1, ref);
    ChangeTables(c, c1, ref);
  }

  lemma RightsMatch(c: Circuit, cmd: Command)
    requires Live(c) && cmd.kind.AccessRightsResponse?
    ensures AcceptsByGuard(c, cmd, ExpectedByCid(c, cmd))
    ensures Guard(Abs(c), cmd) ==> HasEffect(c, cmd, ExpectedByCid(c, cmd))
  {
    RightsForm(Abs(c), cmd);
    hide Guard, Effect, Assumed;
    CidFacts(c, cmd.Cid());
    if cmd.Cid() in c.channels {
      var ref := c.channels[cmd.Cid()];
      if !Phase(c, ref).SendCreateChanRequest? {
        SetRightsAbs(c, ref, cmd.parameter2);
      }
    }
    hide Good, Live, SetRights, AbsChans, AbsTable, Circuit.Wf;
  }

  function Connection(c: Circuit, ref: nat, cmd: Command): Circuit
    requires ref < |c.store|
  {
    EnterSid(SetPhases(WithNative(c, ref, cmd), ref, Pair(Connected, Connected)), ref, cmd.Sid()).circuit
  }

  lemma ConnectionForm(c: Circuit, ref: nat, cmd: Command)
    requires c.Wf() && ref < |c.store|
    ensures var c1 := Connection(c, ref, cmd);
            && c1.Wf()
            && c1 == c.(store := c1.store, channelsSid := c.channelsSid[cmd.Sid() := ref])
            && |c1.store| == |c.store|
            && (forall i | 0 <= i < |c.store| && i != ref :: c1.store[i] == c.store[i])
            && ChanOf(c1.store[ref]) == ChanOf(c.store[ref]).(phase := Connected, sid := Some(cmd.Sid()))
            && c1.store[ref].cid == c.store[ref].cid
  {}

  lemma ConnectAbs(c: Circuit, ref: nat, cmd: Command)
    requires Good(c) && ref < |c.store| && Listed(c, ref) && Phase(c, ref).AwaitCreateChanResponse?
    ensures var c1 := Connection(c, ref, cmd);
            var cid := c.store[ref].cid;
            && c1.Wf()
            && Abs(c1) == Abs(c).(
                 chans := AbsChans(c)[cid := ChanOf(c.store[ref]).(phase := Connected, sid := Some(cmd.Sid()))],
                 sids := AbsTable(c, c.channelsSid)[cmd.Sid() := cid])
  {
    var c1 := Connection(c, ref, cmd);
    OnlyEntry(c, ref);
    assert c.Wf();
    ConnectionForm(c, ref, cmd);
    assert ChangedAt(c, c1, ref);
    EntryAbs(c1, c.channelsSid, cmd.Sid(), ref);
    hide Good, Connection, AbsChans, AbsTable, ChangedAt;
    ChangeAbs(c, c1, ref);
    ChangeTables(c, c1, ref);
  }

  lemma ConnectMatches(c: Circuit, cmd: Command)
    requires Live(c) && cmd.kind.CreateChanResponse?
    ensures AcceptsByGuard(c, cmd, ExpectedByCid(c, cmd))
    ensures Guard(Abs(c), cmd) ==> HasEffect(c, cmd, ExpectedByCid(c, cmd))
  {
    ConnectForm(Abs(c), cmd);
    hide Guard, Effect, Assumed;
    CidFacts(c, cmd.Cid());
    if cmd.Cid() in c.channels && Phase(c, c.channels[cmd.Cid()]).AwaitCreateChanResponse? {
      ConnectAbs(c, c.channels[cmd.Cid()], cmd);
    }
    hide Good, Live, SetPhases, WithNative, EnterSid, AbsChans, Circuit.Wf;
  }

  /** Which entries name the channel that is removed. */
  lemma EntriesOf(c: Circuit, ref: nat)
    requires Good(c) && ref < |c.store| && Listed(c, ref) && IsOpen(c.store[ref])
    ensures c.store[ref].sid.Some? && c.store[ref].sid.value in c.channelsSid
    ensures c.channelsSid[c.store[ref].sid.value] == ref
    ensures forall k <- c.channels :: c.channels[k] == ref <==> k == c.store[ref].cid
    ensures forall sid <- c.channelsSid ::
              c.store[c.channelsSid[sid]].cid == c.store[ref].cid <==> sid == c.store[ref].sid.value
    ensures forall ioid <- c.ioids ::
              c.store[c.ioids[ioid]].cid == c.store[ref].cid <==> c.ioids[ioid] == ref
  {
    assert SidEntry(c, ref);
  }

  lemma RemovalForm(c: Circuit, ref: nat)
    requires c.Wf() && ref < |c.store| && Listed(c, ref)
    requires c.store[ref].sid.Some? && c.store[ref].sid.value in c.channelsSid
    ensures var r := RemoveChannel(SetPhases(c, ref, Pair(Closed, Closed)), ref);
            && r.outcome.Accepted? && r.circuit.Wf()
            && |r.circuit.store| == |c.store|
            && (forall i | 0 <= i < |c.store| && i != ref :: r.circuit.store[i] == c.store[i])
            && r.circuit == c.(store := r.circuit.store,
                               channels := c.channels - {c.store[ref].cid},
                               channelsSid := c.channelsSid - {c.store[ref].sid.value},
                               ioids := WithoutChannel(c.ioids, ref))
  {}

  lemma RemoveAbs(c: Circuit, ref: nat)
    requires Good(c) && ref < |c.store| && Listed(c, ref) && IsOpen(c.store[ref])
    ensures var r := RemoveChannel(SetPhases(c, ref, Pair(Closed, Closed)), ref);
            var cid := c.store[ref].cid;
            && r.outcome.Accepted? && r.circuit.Wf()
            && Abs(r.circuit) == Abs(c).(chans := AbsChans(c) - {cid},
                                         sids := Without(AbsTable(c, c.channelsSid), cid),
                                         ioids := Without(AbsTable(c, c.ioids), cid))
  {
    EntriesOf(c, ref);
    assert c.Wf();
    RemovalForm(c, ref);
    hide Good, SetPhases, RemoveChannel;
    var c1 := RemoveChannel(SetPhases(c, ref, Pair(Closed, Closed)), ref).circuit;
    RemoveChansAbs(c, c1, ref);
    RemoveTablesAbs(c, c1, ref);
    hide AbsChans, AbsTable, Without;
  }

  lemma RemoveChansAbs(c: Circuit, c1: Circuit, ref: nat)
    requires c.Wf() && c1.Wf() && ref < |c.store| == |c1.store|
    requires forall i | 0 <= i < |c.store| && i != ref :: c1.store[i] == c.store[i]
    requires forall k <- c.channels :: c.channels[k] == ref <==> k == c.store[ref].cid
    requires c1.channels == c.channels - {c.store[ref].cid}
    ensures AbsChans(c1) == AbsChans(c) - {c.store[ref].cid}
  {}

  lemma RemoveTablesAbs(c: Circuit, c1: Circuit, ref: nat)
    requires c.Wf() && c1.Wf() && ref < |c.store| == |c1.store|
    requires forall i | 0 <= i < |c.store| && i != ref :: c1.store[i] == c.store[i]
    requires c.store[ref].sid.Some?
    requires forall sid <- c.channelsSid ::
               c.store[c.channelsSid[sid]].cid == c.store[ref].cid <==> sid == c.store[ref].sid.value
    requires forall ioid <- c.ioids ::
               c.store[c.ioids[ioid]].cid == c.store[ref].cid <==> c.ioids[ioid] == ref
    requires c.store[ref].sid.value in c.channelsSid && c.channelsSid[c.store[ref].sid.value] == ref
    requires c1.channelsSid == c.channelsSid - {c.store[ref].sid.value}
    requires c1.ioids == WithoutChannel(c.ioids, ref)
    ensures AbsTable(c1, c1.channelsSid) == Without(AbsTable(c, c.channelsSid), c.store[ref].cid)
    ensures AbsTable(c1, c1.ioids) == Without(AbsTable(c, c.ioids), c.store[ref].cid)
  {
    assert forall sid <- c1.channelsSid :: c1.channelsSid[sid] != ref;
  }

  lemma CloseMatches(c: Circuit, cmd: Command)
    requires Live(c) && cmd.kind.ClearChannelResponse?
    ensures AcceptsByGuard(c, cmd, ExpectedByCid(c, cmd))
    ensures Guard(Abs(c), cmd) ==> HasEffect(c, cmd, ExpectedByCid(c, cmd))
  {
    RemoveForm(Abs(c), cmd);
    hide Guard, Effect, Assumed;
    CidFacts(c, cmd.Cid());
    if cmd.Cid() in c.channels && IsOpen(c.store[c.channels[cmd.Cid()]]) {
      RemoveAbs(c, c.channels[cmd.Cid()]);
    }
    hide Good, Live, SetPhases, RemoveChannel, AbsChans, AbsTable, Circuit.Wf;
  }

  // ----- the refinement

  lemma ProcessMatches(c: Circuit, cmd: Command)
    requires Live(c) && (IsRequest(cmd) || IsResponse(cmd))
    ensures AcceptsByGuard(c, cmd, Process(c, cmd))
    ensures Guard(Abs(c), cmd) ==> HasEffect(c, cmd, Process(c, cmd))
  {
    var meant := Transmute(c, cmd);
    ProcessAsExpected(c, meant);
    hide ProcessForChannel, AcceptsByGuard, HasEffect, Guard, Live, Good;
    hide ExpectedUse, ExpectedAnswer, ExpectedEvent, ExpectedCreate, ExpectedByCid;
    var kind := cmd.kind;
    if kind.NamesSid() {
      UseMatches(c, cmd);
    } else if kind.ClosesIo() {
      AnswerMatches(c, cmd);
    } else if kind.EventCancelRequest? {
      CancelMatches(c, cmd);
    } else if kind.EventAddResponse? {
      UpdateMatches(c, cmd);
    } else if kind.CreateChanRequest? {
      CreateMatches(c, cmd);
    } else if kind.AccessRightsResponse? {
      RightsMatch(c, cmd);
    } else if kind.CreateChanResponse? {
      ConnectMatches(c, cmd);
    } else if kind.ClearChannelResponse? {
      CloseMatches(c, cmd);
    } else {
      FailMatches(c, cmd);
    }
  }

  lemma UseMatches(c: Circuit, cmd: Command)
    requires Live(c) && cmd.kind.NamesSid()
    ensures AcceptsByGuard(c, cmd, ExpectedUse(c, cmd))
    ensures Guard(Abs(c), cmd) ==> HasEffect(c, cmd, ExpectedUse(c, cmd))
  {
    UseAccepted(c, cmd);
    UseForm(Abs(c), cmd);
    hide AcceptsByGuard, HasEffect, Guard, Live, Good, ExpectedUse, Usable, Assumed;
    if Usable(Abs(c), cmd.Sid()) {
      UseFollowed(c, cmd);
    }
  }

  /** The other parts of `Live` survive as well. */
  lemma ProcessKeepsLive(c: Circuit, cmd: Command)
    requires Live(c) && cmd.kind.ForChannel() && Assumed(Abs(c), cmd)
    ensures Live(Process(c, cmd).circuit)
  {
    ProcessKeepsGood(c, cmd);
    var meant := Transmute(c, cmd);
    ProcessAsExpected(c, meant);
    ExpectKeepsRights(c, meant);
    ExpectKeepsCancels(c, meant);
    hide ProcessForChannel, Good, NoEarlyRights, CancelsAgree, Expect;
  }

  lemma ExpectKeepsRights(c: Circuit, cmd: Command)
    requires Good(c) && NoEarlyRights(c)
    ensures NoEarlyRights(Expect(c, cmd).circuit)
  {
    assert c.Wf();
    hide Good, Circuit.Wf, ExpectedCreate, ExpectedByCid;
    CreateKeepsRights(c, cmd);
    ByCidKeepsRights(c, cmd);
    OthersKeepRights(c, cmd);
    hide NoEarlyRights, ExpectedUse, ExpectedAnswer, ExpectedEvent;
  }

  lemma OthersKeepRights(c: Circuit, cmd: Command)
    requires c.Wf() && NoEarlyRights(c)
    ensures NoEarlyRights(ExpectedUse(c, cmd).circuit)
    ensures NoEarlyRights(ExpectedAnswer(c, cmd).circuit)
    ensures NoEarlyRights(ExpectedEvent(c, cmd).circuit)
  {
    hide Circuit.Wf;
  }

  lemma CreateKeepsRights(c: Circuit, cmd: Command)
    requires Good(c) && NoEarlyRights(c)
    ensures NoEarlyRights(ExpectedCreate(c, cmd).circuit)
  {
    assert c.Wf();
    hide Good;
  }

  lemma ConnectKeepsRights(c: Circuit, ref: nat, cmd: Command)
    requires c.Wf() && NoEarlyRights(c) && ref < |c.store|
    ensures NoEarlyRights(ExpectedConnect(c, ref, cmd).circuit)
  {}

  lemma RightsKeepRights(c: Circuit, ref: nat, cmd: Command)
    requires c.Wf() && NoEarlyRights(c) && ref < |c.store|
    ensures NoEarlyRights(ExpectedRights(c, ref, cmd).circuit)
  {}

  lemma RemovalKeepsRights(c: Circuit, ref: nat, cmd: Command)
    requires c.Wf() && NoEarlyRights(c) && ref < |c.store|
    ensures NoEarlyRights(ExpectedRemoval(c, ref, cmd).circuit)
  {}

  lemma MoveKeepsRights(c: Circuit, ref: nat, cmd: Command, from: ChannelPhase, to: ChannelPhase)
    requires c.Wf() && NoEarlyRights(c) && ref < |c.store| && !to.SendCreateChanRequest?
    ensures NoEarlyRights(ExpectedMove(c, ref, cmd, from, to).circuit)
  {}

  lemma ByCidKeepsRights(c: Circuit, cmd: Command)
    requires Good(c) && NoEarlyRights(c)
    ensures NoEarlyRights(ExpectedByCid(c, cmd).circuit)
  {
    assert c.Wf();
    hide Good, ExpectedConnect, ExpectedRights, ExpectedRemoval, ExpectedMove, NoEarlyRights;
    if cmd.Cid() in c.channels {
      var ref := c.channels[cmd.Cid()];
      ConnectKeepsRights(c, ref, cmd);
      RightsKeepRights(c, ref, cmd);
      RemovalKeepsRights(c, ref, cmd);
      MoveKeepsRights(c, ref, cmd, AwaitCreateChanResponse, Failed);
      MoveKeepsRights(c, ref, cmd, Connected, MustClose);
    }
  }

  predicate SameSubscriptions(c: Circuit, c1: Circuit) {
    c1.eventAdds == c.eventAdds && c1.eventCancels == c.eventCancels
  }

  lemma ConnectKeepsSubscriptions(c: Circuit, ref: nat, cmd: Command)
    requires ref < |c.store|
    ensures SameSubscriptions(c, ExpectedConnect(c, ref, cmd).circuit)
  {}

  lemma RemovalKeepsSubscriptions(c: Circuit, ref: nat, cmd: Command)
    requires ref < |c.store|
    ensures SameSubscriptions(c, ExpectedRemoval(c, ref, cmd).circuit)
  {}

  lemma ByCidKeepsSubscriptions(c: Circuit, cmd: Command)
    requires c.Wf()
    ensures SameSubscriptions(c, ExpectedByCid(c, cmd).circuit)
  {
    hide ExpectedConnect, ExpectedRemoval;
    if cmd.Cid() in c.channels {
      ConnectKeepsSubscriptions(c, c.channels[cmd.Cid()], cmd);
      RemovalKeepsSubscriptions(c, c.channels[cmd.Cid()], cmd);
    }
  }

  lemma EventKeepsCancels(c: Circuit, cmd: Command)
    requires c.Wf() && CancelsAgree(c)
    ensures CancelsAgree(ExpectedEvent(c, cmd).circuit)
  {}

  lemma ExpectKeepsCancels(c: Circuit, cmd: Command)
    requires c.Wf() && CancelsAgree(c)
    requires cmd.kind.EventAddRequest? ==> cmd.SubscriptionId() !in c.eventAdds
    ensures CancelsAgree(Expect(c, cmd).circuit)
  {
    if cmd.kind.NamesSid() {
      hide ExpectedEvent, ExpectedCreate, ExpectedByCid;
    } else {
      EventKeepsCancels(c, cmd);
      ByCidKeepsSubscriptions(c, cmd);
      hide ExpectedEvent, ExpectedByCid, ExpectedUse, Circuit.Wf;
    }
  }

  /** The refinement: given what both ends assume, a circuit accepts exactly the commands
      that the session's guards allow, and accepting one has exactly the session's effect. */
  lemma Refines(c: Circuit, cmd: Command)
    requires Live(c) && (IsRequest(cmd) || IsResponse(cmd)) && Assumed(Abs(c), cmd)
    ensures Process(c, cmd).outcome.Accepted? <==> Guard(Abs(c), cmd)
    ensures Live(Process(c, cmd).circuit)
    ensures Guard(Abs(c), cmd) ==> Abs(Process(c, cmd).circuit) == Effect(Abs(c), cmd)
  {
    ProcessMatches(c, cmd);
    ProcessKeepsLive(c, cmd);
    hide Process, Live, Guard, Effect, Assumed, Abs;
  }

  /** A guard implies what the ends are assumed to observe. */
  lemma GuardAssumes(s: Session, cmd: Command)
    requires Guard(s, cmd)
    ensures Assumed(s, cmd)
  {}

  /** A command that is refused locally leaves the session as it was. */
  lemma RefusalKeepsSession(c: Circuit, cmd: Command)
    requires Live(c) && (IsRequest(cmd) || IsResponse(cmd)) && Assumed(Abs(c), cmd)
    requires !Process(c, cmd).outcome.Accepted?
    ensures Live(Process(c, cmd).circuit)
    ensures Abs(Process(c, cmd).circuit) == Abs(c)
  {
    ProcessKeepsLive(c, cmd);
    var meant := Transmute(c, cmd);
    ProcessAsExpected(c, meant);
    hide ProcessForChannel;
    ExpectedRefusal(c, meant);
    hide Good, Live, Expect, AbsChans, AbsTable;
  }

  lemma WithNativeAbs(c: Circuit, ref: nat, cmd: Command)
    requires c.Wf() && ref < |c.store|
    ensures WithNative(c, ref, cmd).Wf() && Abs(WithNative(c, ref, cmd)) == Abs(c)
  {
    var c1 := WithNative(c, ref, cmd);
    assert forall i | 0 <= i < |c.store| :: ChanOf(c1.store[i]) == ChanOf(c.store[i]);
    SamePlaces(c, c1);
    assert AbsChans(c1) == AbsChans(c);
    hide AbsChans, AbsTable, WithNative;
  }

  lemma RemovalRefusal(c: Circuit, ref: nat, cmd: Command)
    requires Good(c) && ref < |c.store| && Listed(c, ref)
    requires !ExpectedRemoval(c, ref, cmd).outcome.Accepted?
    ensures ExpectedRemoval(c, ref, cmd).circuit == c
  {
    if IsOpen(c.store[ref]) {
      EntriesOf(c, ref);
      RemovalForm(c, ref);
    }
    hide Good, RemoveChannel, SetPhases;
  }

  /** Whoever refuses leaves the circuit alone, but for a native type that was recorded. */
  lemma RefusedUnchanged(c: Circuit, ref: nat, cmd: Command, from: ChannelPhase, to: ChannelPhase)
    requires ref < |c.store|
    ensures var r := ExpectedConnect(c, ref, cmd);
            !r.outcome.Accepted? ==> r.circuit == c || r.circuit == WithNative(c, ref, cmd)
    ensures var r := ExpectedRights(c, ref, cmd); !r.outcome.Accepted? ==> r.circuit == c
    ensures var r := ExpectedMove(c, ref, cmd, from, to); !r.outcome.Accepted? ==> r.circuit == c
  {}

  lemma ByCidRefused(c: Circuit, cmd: Command)
    requires Good(c) && cmd.Cid() in c.channels && !ExpectedByCid(c, cmd).outcome.Accepted?
    ensures var r, ref := ExpectedByCid(c, cmd), c.channels[cmd.Cid()];
            ref < |c.store| && (r.circuit == c || r.circuit == WithNative(c, ref, cmd))
  {
    var ref := c.channels[cmd.Cid()];
    assert c.Wf() && Listed(c, ref);
    hide Good, Circuit.Wf, Listed, WithNative, ExpectedConnect, ExpectedRights, ExpectedMove, ExpectedRemoval;
    RefusedUnchanged(c, ref, cmd, AwaitCreateChanResponse, Failed);
    RefusedUnchanged(c, ref, cmd, Connected, MustClose);
    if !ExpectedRemoval(c, ref, cmd).outcome.Accepted? {
      RemovalRefusal(c, ref, cmd);
    }
  }

  lemma ByCidRefusal(c: Circuit, cmd: Command)
    requires Good(c) && !ExpectedByCid(c, cmd).outcome.Accepted?
    ensures ExpectedByCid(c, cmd).circuit.Wf() && Abs(ExpectedByCid(c, cmd).circuit) == Abs(c)
  {
    assert c.Wf();
    if cmd.Cid() in c.channels {
      hide *;
      ByCidRefused(c, cmd);
      WithNativeAbs(c, c.channels[cmd.Cid()], cmd);
    } else {
      assert ExpectedByCid(c, cmd).circuit == c;
      hide *;
    }
  }

  lemma UseRefusal(c: Circuit, cmd: Command)
    requires c.Wf() && !ExpectedUse(c, cmd).outcome.Accepted?
    ensures ExpectedUse(c, cmd).circuit == c
  {}

  lemma EventRefusal(c: Circuit, cmd: Command)
    requires c.Wf() && !ExpectedEvent(c, cmd).outcome.Accepted?
    requires cmd.kind.EventCancelResponse? ==> cmd.SubscriptionId() in c.eventCancels
    ensures ExpectedEvent(c, cmd).circuit == c
  {}

  lemma ExpectedRefusal(c: Circuit, cmd: Command)
    requires Good(c) && !Expect(c, cmd).outcome.Accepted?
    requires cmd.kind.EventCancelResponse? ==> cmd.SubscriptionId() in c.eventCancels
    ensures Expect(c, cmd).circuit.Wf()
    ensures Abs(Expect(c, cmd).circuit) == Abs(c)
  {
    assert c.Wf();
    hide Good, Abs, Circuit.Wf, ExpectedByCid, ExpectedEvent, ExpectedUse;
    if cmd.kind.NamesSid() {
      UseRefusal(c, cmd);
    } else if cmd.kind.ClosesIo() || cmd.kind.CreateChanRequest? {
    } else if cmd.kind.EventCancelRequest? || cmd.kind.EventAddResponse? || cmd.kind.EventCancelResponse? {
      EventRefusal(c, cmd);
    } else {
      ByCidRefusal(c, cmd);
    }
  }
}
