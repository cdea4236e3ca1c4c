/** The protocol seen from outside a circuit: channels by cid, each command one guard and
    one effect. A circuit with fresh ids refines this session, and requests commute with
    the responses that cross them on the way. */
module Session {
  import opened Protocol
  import opened States

  datatype Chan = Chan(phase: ChannelPhase, sid: Option<nat>, rights: Option<nat>)

  datatype Session = Session(
    chans: map<nat, Chan>,           // by cid; channels that were asked for
    sids: map<nat, nat>,             // sid to cid
    ioids: map<nat, nat>,            // ioid to cid
    adds: map<nat, Command>,         // subscriptions
    cancels: set<nat>)               // subscriptions whose cancellation was requested

  // ----- the reference

  predicate IsRequest(cmd: Command) {
    var kind := cmd.kind;
    UsesChannel(kind) || kind.CreateChanRequest? || kind.ClearChannelRequest?
  }

  /** Responses as they appear on the wire. A server that drops a channel on its own
      account is not covered. */
  predicate IsResponse(cmd: Command) {
    var kind := cmd.kind;
    || kind.ClosesIo() || kind.EventAddResponse? || kind.AccessRightsResponse?
    || kind.CreateChanResponse? || kind.CreateChFailResponse? || kind.ClearChannelResponse?
  }

  predicate InPhase(s: Session, cid: nat, phase: ChannelPhase) {
    cid in s.chans && s.chans[cid].phase == phase
  }

  /** The sid of an open channel on which the client may still send requests. */
  predicate Usable(s: Session, sid: nat) {
    sid in s.sids && InPhase(s, s.sids[sid], Connected)
  }

  predicate Guard(s: Session, cmd: Command) {
    var kind := cmd.kind;
    var id := cmd.SubscriptionId();
    if kind.OpensIo() then Usable(s, cmd.Sid()) && cmd.Ioid() !in s.ioids
    else if kind.WriteRequest? then Usable(s, cmd.Sid())
    else if kind.EventAddRequest? then Usable(s, cmd.Sid()) && id !in s.adds
    else if kind.EventCancelRequest? then
      && id in s.adds && id !in s.cancels && Usable(s, cmd.Sid()) && cmd.KnownType()
      && s.adds[id].Sid() == cmd.Sid() && s.adds[id].dataType == cmd.dataType
    else if kind.CreateChanRequest? then cmd.Cid() !in s.chans && cmd.nameParses
    else if kind.ClearChannelRequest? then InPhase(s, cmd.Cid(), Connected)
    else if kind.ClosesIo() then cmd.Ioid() in s.ioids
    else if kind.EventAddResponse? then
      && id in s.adds && s.adds[id].Sid() in s.sids && s.adds[id].dataType == cmd.dataType && cmd.KnownType()
      && (if cmd.payloadSize == 0 then id in s.cancels
          else s.adds[id].dataCount == 0 || s.adds[id].dataCount == cmd.dataCount)
    else if kind.AccessRightsResponse? then
      cmd.Cid() in s.chans && !s.chans[cmd.Cid()].phase.Failed?
    else if kind.CreateChanResponse? then
      InPhase(s, cmd.Cid(), AwaitCreateChanResponse) && cmd.Sid() !in s.sids && cmd.KnownType()
    else if kind.CreateChFailResponse? then InPhase(s, cmd.Cid(), AwaitCreateChanResponse)
    else kind.ClearChannelResponse? && InPhase(s, cmd.Cid(), MustClose)
  }

  function SetPhase(s: Session, cid: nat, phase: ChannelPhase): Session {
    if cid in s.chans then s.(chans := s.chans[cid := s.chans[cid].(phase := phase)]) else s
  }

  function Without(table: map<nat, nat>, cid: nat): map<nat, nat> {
    map k | k in table && table[k] != cid :: table[k]
  }

  function Effect(s: Session, cmd: Command): Session {
    var kind := cmd.kind;
    var id := cmd.SubscriptionId();
    var cid := cmd.Cid();
    if kind.OpensIo() then
      if cmd.Sid() in s.sids then s.(ioids := s.ioids[cmd.Ioid() := s.sids[cmd.Sid()]]) else s
    else if kind.EventAddRequest? then s.(adds := s.adds[id := cmd])
    else if kind.EventCancelRequest? then s.(cancels := s.cancels + {id})
    else if kind.CreateChanRequest? then
      s.(chans := s.chans[cid := Chan(AwaitCreateChanResponse, None, None)])
    else if kind.ClearChannelRequest? then SetPhase(s, cid, MustClose)
    else if kind.ClosesIo() then s.(ioids := s.ioids - {cmd.Ioid()})
    else if kind.EventAddResponse? then
      if cmd.payloadSize == 0 then s.(adds := s.adds - {id}, cancels := s.cancels - {id}) else s
    else if kind.AccessRightsResponse? then
      if cid in s.chans then s.(chans := s.chans[cid := s.chans[cid].(rights := Some(cmd.parameter2))])
      else s
    else if kind.CreateChanResponse? then
      if cid in s.chans then
        s.(chans := s.chans[cid := s.chans[cid].(phase := Connected, sid := Some(cmd.Sid()))],
           sids := s.sids[cmd.Sid() := cid])
      else s
    else if kind.CreateChFailResponse? then SetPhase(s, cid, Failed)
    else if kind.ClearChannelResponse? then
      s.(chans := s.chans - {cid}, sids := Without(s.sids, cid), ioids := Without(s.ioids, cid))
    else s
  }

  /** What the two ends are assumed to observe when they send: fresh ids, one cancel per
      subscription, no empty updates, well-formed names. `s` is the sender's session. */
  predicate Assumed(s: Session, cmd: Command) {
    var kind := cmd.kind;
    && (kind.OpensIo() ==> cmd.Ioid() !in s.ioids)
    && (kind.EventAddRequest? ==> cmd.SubscriptionId() !in s.adds)
    && (kind.EventCancelRequest? ==> cmd.SubscriptionId() !in s.cancels)
    && (kind.CreateChanRequest? ==> cmd.nameParses)
    && (kind.CreateChanResponse? ==> cmd.Sid() !in s.sids)
    && (kind.EventAddResponse? && cmd.payloadSize == 0 ==> cmd.SubscriptionId() in s.cancels)
  }

  // ----- the reference, one kind of command at a time

  lemma UseForm(s: Session, cmd: Command)
    requires cmd.kind.NamesSid()
    ensures Guard(s, cmd) == (Usable(s, cmd.Sid()) && Assumed(s, cmd))
    ensures Usable(s, cmd.Sid()) ==>
              Effect(s, cmd) ==
              if cmd.kind.OpensIo() then s.(ioids := s.ioids[cmd.Ioid() := s.sids[cmd.Sid()]])
              else if cmd.kind.EventAddRequest? then s.(adds := s.adds[cmd.SubscriptionId() := cmd])
              else s
  {}

  lemma AnswerForm(s: Session, cmd: Command)
    requires cmd.kind.ClosesIo()
    ensures Guard(s, cmd) == (cmd.Ioid() in s.ioids) && Assumed(s, cmd)
    ensures Effect(s, cmd) == s.(ioids := s.ioids - {cmd.Ioid()})
  {}

  lemma CancelForm(s: Session, cmd: Command)
    requires cmd.kind.EventCancelRequest?
    ensures var id := cmd.SubscriptionId();
            && Assumed(s, cmd) == (id !in s.cancels)
            && Guard(s, cmd) == (
                 && id in s.adds && id !in s.cancels && Usable(s, cmd.Sid()) && cmd.KnownType()
                 && s.adds[id].Sid() == cmd.Sid() && s.adds[id].dataType == cmd.dataType)
            && Effect(s, cmd) == s.(cancels := s.cancels + {id})
  {}

  lemma UpdateForm(s: Session, cmd: Command)
    requires cmd.kind.EventAddResponse?
    ensures var id := cmd.SubscriptionId();
            && Assumed(s, cmd) == (cmd.payloadSize == 0 ==> id in s.cancels)
            && Guard(s, cmd) == (
                 && id in s.adds && s.adds[id].Sid() in s.sids && s.adds[id].dataType == cmd.dataType
                 && cmd.KnownType()
                 && (if cmd.payloadSize == 0 then id in s.cancels
                     else s.adds[id].dataCount == 0 || s.adds[id].dataCount == cmd.dataCount))
            && Effect(s, cmd) ==
               if cmd.payloadSize == 0 then s.(adds := s.adds - {id}, cancels := s.cancels - {id}) else s
  {}

  lemma CreateForm(s: Session, cmd: Command)
    requires cmd.kind.CreateChanRequest?
    ensures Assumed(s, cmd) == cmd.nameParses
    ensures Guard(s, cmd) == (cmd.Cid() !in s.chans && cmd.nameParses)
    ensures Effect(s, cmd) == s.(chans := s.chans[cmd.Cid() := Chan(AwaitCreateChanResponse, None, None)])
  {}

  lemma MoveForm(s: Session, cmd: Command)
    requires cmd.kind.ClearChannelRequest? || cmd.kind.CreateChFailResponse?
    ensures Assumed(s, cmd)
    ensures Guard(s, cmd) ==
            InPhase(s, cmd.Cid(), if cmd.kind.ClearChannelRequest? then Connected else AwaitCreateChanResponse)
    ensures Effect(s, cmd) ==
            SetPhase(s, cmd.Cid(), if cmd.kind.ClearChannelRequest? then MustClose else Failed)
  {}

  lemma RightsForm(s: Session, cmd: Command)
    requires cmd.kind.AccessRightsResponse?
    ensures Assumed(s, cmd)
    ensures Guard(s, cmd) == (cmd.Cid() in s.chans && !s.chans[cmd.Cid()].phase.Failed?)
    ensures cmd.Cid() in s.chans ==>
              Effect(s, cmd) ==
              s.(chans := s.chans[cmd.Cid() := s.chans[cmd.Cid()].(rights := Some(cmd.parameter2))])
  {}

  lemma ConnectForm(s: Session, cmd: Command)
    requires cmd.kind.CreateChanResponse?
    ensures Assumed(s, cmd) == (cmd.Sid() !in s.sids)
    ensures Guard(s, cmd) ==
            (InPhase(s, cmd.Cid(), AwaitCreateChanResponse) && cmd.Sid() !in s.sids && cmd.KnownType())
    ensures cmd.Cid() in s.chans ==>
              Effect(s, cmd) ==
              s.(chans := s.chans[cmd.Cid() := s.chans[cmd.Cid()].(phase := Connected, sid := Some(cmd.Sid()))],
                 sids := s.sids[cmd.Sid() := cmd.Cid()])
  {}

  lemma RemoveForm(s: Session, cmd: Command)
    requires cmd.kind.ClearChannelResponse?
    ensures Assumed(s, cmd)
    ensures Guard(s, cmd) == InPhase(s, cmd.Cid(), MustClose)
    ensures Effect(s, cmd) ==
            s.(chans := s.chans - {cmd.Cid()},
               sids := Without(s.sids, cmd.Cid()), ioids := Without(s.ioids, cmd.Cid()))
  {}

  // ----- what holds of sessions that come from circuits

  /** The sids and open transactions of a session lead to open channels. */
  ghost predicate Sound(s: Session) {
    && (forall sid <- s.sids ::
          s.sids[sid] in s.chans
          && (s.chans[s.sids[sid]].phase.Connected? || s.chans[s.sids[sid]].phase.MustClose?))
    && (forall ioid <- s.ioids ::
          s.ioids[ioid] in s.chans
          && (s.chans[s.ioids[ioid]].phase.Connected? || s.chans[s.ioids[ioid]].phase.MustClose?))
  }

  lemma EffectSound(s: Session, cmd: Command)
    requires Sound(s) && Guard(s, cmd)
    ensures Sound(Effect(s, cmd))
  {}

  // ----- requests commute with responses

  ghost predicate Commute(s: Session, q: Command, r: Command) {
    && Guard(Effect(s, q), r)
    && Guard(Effect(s, r), q)
    && Effect(Effect(s, q), r) == Effect(Effect(s, r), q)
  }

  ghost predicate Crossing(s: Session, q: Command, r: Command) {
    Sound(s) && IsRequest(q) && Guard(s, q) && IsResponse(r) && Guard(s, r)
  }

  lemma UseCommutes(s: Session, q: Command, r: Command)
    requires Crossing(s, q, r) && (q.kind.OpensIo() || q.kind.WriteRequest?)
    ensures Commute(s, q, r)
  {
    if r.kind.ClosesIo() {
      UseCommutesWithAnswer(s, q, r);
    } else if r.kind.EventAddResponse? {
      UseCommutesWithUpdate(s, q, r);
    } else {
      UseCommutesWithOthers(s, q, r);
    }
    hide Crossing, Commute;
  }

  lemma UseCommutesWithAnswer(s: Session, q: Command, r: Command)
    requires Crossing(s, q, r) && (q.kind.OpensIo() || q.kind.WriteRequest?) && r.kind.ClosesIo()
    ensures Commute(s, q, r)
  {
    UseForm(s, q);
    UseForm(Effect(s, r), q);
    AnswerForm(s, r);
    AnswerForm(Effect(s, q), r);
    hide Guard, Effect, Sound, Command.KnownType;
  }

  lemma UseCommutesWithUpdate(s: Session, q: Command, r: Command)
    requires Crossing(s, q, r) && (q.kind.OpensIo() || q.kind.WriteRequest?) && r.kind.EventAddResponse?
    ensures Commute(s, q, r)
  {
    UseForm(s, q);
    UseForm(Effect(s, r), q);
    UpdateForm(s, r);
    UpdateForm(Effect(s, q), r);
    hide Guard, Effect, Sound, Command.KnownType;
  }

  lemma UseCommutesWithOthers(s: Session, q: Command, r: Command)
    requires Crossing(s, q, r) && (q.kind.OpensIo() || q.kind.WriteRequest?)
    requires !r.kind.ClosesIo() && !r.kind.EventAddResponse?
    ensures Commute(s, q, r)
  {
    hide Command.KnownType;
    UseForm(s, q);
    UseForm(Effect(s, r), q);
  }

  lemma SubscribeCommutes(s: Session, q: Command, r: Command)
    requires Crossing(s, q, r) && q.kind.EventAddRequest?
    ensures Commute(s, q, r)
  {}

  lemma CancelCommutes(s: Session, q: Command, r: Command)
    requires Crossing(s, q, r) && q.kind.EventCancelRequest?
    ensures Commute(s, q, r)
  {}

  /** Requests that move a channel and responses about transactions or updates. */
  lemma MoveCommutesWithAnswer(s: Session, q: Command, r: Command)
    requires Crossing(s, q, r) && (q.kind.CreateChanRequest? || q.kind.ClearChannelRequest?)
    requires r.kind.ClosesIo() || r.kind.EventAddResponse?
    ensures Commute(s, q, r)
  {}

  lemma MoveCommutesWithRights(s: Session, q: Command, r: Command)
    requires Crossing(s, q, r) && (q.kind.CreateChanRequest? || q.kind.ClearChannelRequest?)
    requires r.kind.AccessRightsResponse?
    ensures Commute(s, q, r)
  {
    if q.kind.CreateChanRequest? {
      CreateForm(s, q);
      CreateForm(Effect(s, r), q);
    } else {
      MoveForm(s, q);
      MoveForm(Effect(s, r), q);
    }
    RightsForm(s, r);
    RightsForm(Effect(s, q), r);
    hide Guard, Effect, Assumed, Sound, Command.KnownType;
  }

  /** Requests and responses that move a channel never move the same one. */
  lemma MoveCommutesWithFailure(s: Session, q: Command, r: Command)
    requires Crossing(s, q, r) && (q.kind.CreateChanRequest? || q.kind.ClearChannelRequest?)
    requires r.kind.CreateChFailResponse?
    ensures Commute(s, q, r)
  {
    if q.kind.CreateChanRequest? {
      CreateForm(s, q);
      CreateForm(Effect(s, r), q);
    } else {
      MoveForm(s, q);
      MoveForm(Effect(s, r), q);
    }
    MoveForm(s, r);
    MoveForm(Effect(s, q), r);
    hide Guard, Effect, Assumed, Sound, Command.KnownType;
  }

  lemma CreateCommutesWithConnect(s: Session, q: Command, r: Command)
    requires Crossing(s, q, r) && q.kind.CreateChanRequest? && r.kind.CreateChanResponse?
    ensures Commute(s, q, r)
  {
    CreateForm(s, q);
    CreateForm(Effect(s, r), q);
    ConnectForm(s, r);
    ConnectForm(Effect(s, q), r);
    hide Guard, Effect, Assumed, Sound, Command.KnownType;
  }

  lemma CloseCommutesWithConnect(s: Session, q: Command, r: Command)
    requires Crossing(s, q, r) && q.kind.ClearChannelRequest? && r.kind.CreateChanResponse?
    ensures Commute(s, q, r)
  {
    assert q.Cid() != r.Cid();
  }

  lemma MoveCommutesWithRemoval(s: Session, q: Command, r: Command)
    requires Crossing(s, q, r) && (q.kind.CreateChanRequest? || q.kind.ClearChannelRequest?)
    requires r.kind.ClearChannelResponse?
    ensures Commute(s, q, r)
  {
    if q.kind.CreateChanRequest? {
      CreateForm(s, q);
      CreateForm(Effect(s, r), q);
    } else {
      MoveForm(s, q);
      MoveForm(Effect(s, r), q);
    }
    RemoveForm(s, r);
    RemoveForm(Effect(s, q), r);
    hide Guard, Effect, Assumed, Sound, Without, Command.KnownType;
  }

  /** A request q and a response r that are both possible in the same session can happen
      in either order, with the same result: messages may cross on the way. */
  lemma RequestsCommute(s: Session, q: Command, r: Command)
    requires Crossing(s, q, r)
    ensures Commute(s, q, r)
  {
    hide Commute;
    if q.kind.OpensIo() || q.kind.WriteRequest? {
      UseCommutes(s, q, r);
    } else if q.kind.EventAddRequest? {
      SubscribeCommutes(s, q, r);
    } else if q.kind.EventCancelRequest? {
      CancelCommutes(s, q, r);
    } else if r.kind.ClosesIo() || r.kind.EventAddResponse? {
      MoveCommutesWithAnswer(s, q, r);
    } else if r.kind.AccessRightsResponse? {
      MoveCommutesWithRights(s, q, r);
    } else if r.kind.ClearChannelResponse? {
      MoveCommutesWithRemoval(s, q, r);
    } else if r.kind.CreateChFailResponse? {
      MoveCommutesWithFailure(s, q, r);
    } else if q.kind.CreateChanRequest? {
      CreateCommutesWithConnect(s, q, r);
    } else {
      CloseCommutesWithConnect(s, q, r);
    }
  }
}
