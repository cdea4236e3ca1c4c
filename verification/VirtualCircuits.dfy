/** The circuit and its channels as the mutable objects they are, proved to do to their
    fields exactly what the functions of module Circuit say. */
module VirtualCircuits {
  import opened Protocol
  import opened States
  import opened Ids
  import opened ByteStrings
  import Headers
  import Messages
  import Stream
  import RoundTrips
  import Runs
  import Delivery
  import Circuit
  import LockStep
  import Refinement
  import Session

  /** The phases of the circuit, shared by the circuit and all of its channels. */
  class CircuitState {
    var states: CircuitPhases

    constructor ()
      ensures states == FRESH_CIRCUIT
    {
      states := FRESH_CIRCUIT;
    }
  }

  class ChannelObject {
    const cid: nat
    const circuitState: CircuitState
    ghost const serial: nat           // how many channels the circuit made before this one
    var states: ChannelPhases
    var sid: Option<nat>
    var nativeType: Option<nat>
    var nativeCount: Option<nat>
    var accessRights: Option<nat>
    var version: nat

    constructor (cid: nat, circuitState: CircuitState, version: nat, ghost serial: nat)
      ensures this.serial == serial && this.circuitState == circuitState
      ensures View() == Circuit.FreshChannel(cid, version)
    {
      this.cid := cid;
      this.circuitState := circuitState;
      this.serial := serial;
      states := FRESH_CHANNEL;
      sid, nativeType, nativeCount, accessRights := None, None, None, None;
      this.version := version;
    }

    ghost function View(): Circuit.Channel
      reads this
    {
      Circuit.Channel(cid, states, sid, nativeType, nativeCount, accessRights, version)
    }

    ghost function Both(): Coupled
      reads this, circuitState
    {
      Coupled(states, circuitState.states)
    }

    /** Fire the state-triggered transition of one role, if the table has one. */
    method FireStateTriggered(role: Role)
      modifies this`states, circuitState
      ensures Both() == States.FireStateTriggered(old(Both()), role)
    {
      match StateTriggered(role, states.Get(role), circuitState.states.Get(role)) {
        case None =>
        case Some((channel, circuit)) =>
          states := states.Set(role, channel);
          circuitState.states := circuitState.states.Set(role, circuit);
      }
    }

    method Update()
      modifies this`states, circuitState
      ensures Both() == States.Update(old(Both()))
    {
      FireStateTriggered(Client);
      FireStateTriggered(Server);
    }

    method ProcessCommandType(role: Role, kind: Kind) returns (error: Option<Error>)
      modifies this`states, circuitState
      ensures match StepRole(old(Both()), role, kind)
              case None => error == Some(GetException(role, kind)) && Both() == old(Both())
              case Some(next) => error == None && Both() == next
    {
      match ChannelTable(role, states.Get(role), kind) {
        case None =>
          error := Some(GetException(role, kind));
        case Some(phase) =>
          states := states.Set(role, phase);
          Update();
          error := None;
      }
    }

    /** Record the native type first, then step our role and the other one; a refusal of
        the second leaves the first step in place. */
    method ProcessCommand(ours: Role, cmd: Command) returns (error: Option<Error>)
      modifies this, circuitState
      ensures var stepped := StepBothRoles(old(Both()), ours, cmd.kind);
              Both() == stepped.state && error == stepped.error
      ensures View() ==
              if cmd.kind.CreateChanResponse?
              then old(View()).(nativeType := Some(cmd.dataType), nativeCount := Some(cmd.dataCount), phases := states)
              else old(View()).(phases := states)
    {
      if cmd.kind.CreateChanResponse? {
        nativeType, nativeCount := Some(cmd.dataType), Some(cmd.dataCount);
      }
      error := ProcessCommandType(ours, cmd.kind);
      if error == None {
        error := ProcessCommandType(ours.Other(), cmd.kind);
      }
    }
  }

  // ----- tables of channel objects, and what they are in a Circuit value

  ghost function Refs(table: map<nat, ChannelObject>): map<nat, nat> {
    map key | key in table :: table[key].serial
  }

  lemma RefsWithout(table: map<nat, ChannelObject>, key: nat)
    ensures Refs(table - {key}) == Refs(table) - {key}
  {}

  datatype TargetObject =
    | FoundObject(channel: ChannelObject)
    | DroppedObject
    | MissingObject(error: Error)

  datatype Reception =
    | ConnectionClosed                                   // nothing received: DISCONNECTED
    | CommandsRead(commands: seq<Messages.Message>, missing: nat)
    | ReadError(error: Messages.WireError)               // an exception leaves recv

  datatype Dispatch =
    | Buffers(buffers: seq<Bytes>)
    | Refused(error: Error)                              // an exception leaves send

  class VirtualCircuit {
    const ours: Role
    const states: CircuitState
    const channelIds: Counter
    const transactionIds: Counter
    const subscriptionIds: Counter
    var channels: map<nat, ChannelObject>
    var channelsSid: map<nat, ChannelObject>
    var ioids: map<nat, ChannelObject>
    var eventAdds: map<nat, Command>
    var eventCancels: map<nat, Command>
    var priority: Option<nat>
    var version: nat
    var data: Bytes                       // received, but not yet parsed
    ghost var made: seq<ChannelObject>    // every channel object, in the order of creation

    ghost predicate Made(channel: ChannelObject)
      reads this
    {
      channel.serial < |made| && made[channel.serial] == channel
    }

    ghost predicate Valid()
      reads this
    {
      && (forall i | 0 <= i < |made| :: made[i].serial == i && made[i].circuitState == states)
      && (forall cid <- channels :: Made(channels[cid]))
      && (forall sid <- channelsSid :: Made(channelsSid[sid]))
      && (forall ioid <- ioids :: Made(ioids[ioid]))
    }

    ghost function Store(): seq<Circuit.Channel>
      reads this, made
    {
      seq(|made|, i requires 0 <= i < |made| reads this, made => made[i].View())
    }

    /** The value of module Circuit that these objects represent. */
    ghost function View(): Circuit.Circuit
      reads this, made, states
    {
      Circuit.Circuit(ours, states.states, Store(), Refs(channels), Refs(channelsSid), Refs(ioids),
                      eventAdds, eventCancels, priority, version)
    }

    /** A client must know its priority. */
    constructor (ours: Role, priority: Option<nat>, version: nat)
      requires ours.Client? ==> priority.Some?
      ensures Valid() && View() == Circuit.Initial(ours, priority, version)
      ensures fresh(states) && made == [] && data == []
    {
      this.ours := ours;
      this.states := new CircuitState();
      channelIds := new Counter();
      transactionIds := new Counter();
      subscriptionIds := new Counter();
      channels, channelsSid, ioids := map[], map[], map[];
      eventAdds, eventCancels := map[], map[];
      this.priority := priority;
      this.version := version;
      data := [];
      made := [];
    }

    /** Making a circuit from unchecked arguments: an exception if a client has no priority. */
    static method Make(ours: Role, priority: Option<nat>, version: nat) returns (r: Option<VirtualCircuit>)
      ensures r.None? <==> ours.Client? && priority.None?
      ensures r.Some? ==>
                && fresh(r.value) && fresh(r.value.states) && r.value.Valid() && r.value.made == []
                && r.value.data == [] && r.value.View() == Circuit.Initial(ours, priority, version)
    {
      if ours.Client? && priority.None? {
        return None;
      }
      var circuit := new VirtualCircuit(ours, priority, version);
      r := Some(circuit);
    }

    lemma ViewIsWf()
      requires Valid()
      ensures View().Wf()
    {}

    /** Constructing a channel on this circuit. */
    method NewChannel(cid: nat) returns (channel: ChannelObject)
      requires Valid()
      modifies this`channels, this`made
      ensures Valid() && fresh(channel) && made == old(made) + [channel]
      ensures View() == Circuit.NewChannel(old(View()), cid)
      ensures channel.serial == |old(made)|
    {
      channel := new ChannelObject(cid, states, version, |made|);
      channels := channels[cid := channel];
      made := made + [channel];
      assert Refs(channels) == Refs(old(channels))[cid := channel.serial];
    }

    // ----- unused ids, which is what the two-party model assumes of the ends

    /** The table that channel ids must not clash with. */
    function UsedChannelIds(): set<nat>
      reads this
    {
      if ours.Client? then channels.Keys else channelsSid.Keys
    }

    /** A client looks for an unused cid and a server for an unused sid. */
    method NewChannelId() returns (id: nat)
      requires Valid()
      requires exists free: nat :: IsFree(UsedChannelIds(), free)
      modifies channelIds
      ensures Valid() && View() == old(View())
      ensures IsNext(old(channelIds.value), UsedChannelIds(), id)
      ensures ours.Client? ==> id !in View().channels
      ensures forall cmd: Command |
                ours.Server? && cmd.kind.CreateChanResponse? && cmd.Sid() == id ::
                View().Wf() && Session.Assumed(Refinement.Abs(View()), cmd)
    {
      id := channelIds.Next(UsedChannelIds());
    }

    method NewIoid() returns (id: nat)
      requires Valid()
      requires exists free: nat :: IsFree(ioids.Keys, free)
      modifies transactionIds
      ensures Valid() && View() == old(View())
      ensures IsNext(old(transactionIds.value), ioids.Keys, id)
      ensures forall cmd: Command | cmd.kind.OpensIo() && cmd.Ioid() == id ::
                View().Wf() && Session.Assumed(Refinement.Abs(View()), cmd)
    {
      id := transactionIds.Next(ioids.Keys);
    }

    method NewSubscriptionId() returns (id: nat)
      requires Valid()
      requires exists free: nat :: IsFree(eventAdds.Keys, free)
      modifies subscriptionIds
      ensures Valid() && View() == old(View())
      ensures IsNext(old(subscriptionIds.value), eventAdds.Keys, id)
      ensures forall cmd: Command | cmd.kind.EventAddRequest? && cmd.SubscriptionId() == id ::
                View().Wf() && Session.Assumed(Refinement.Abs(View()), cmd)
    {
      id := subscriptionIds.Next(eventAdds.Keys);
    }

    // ----- finding the channel a command is about

    /** Nothing but channels made meanwhile was added. */
    twostate predicate MadeGrew()
      reads this
    {
      && |old(made)| <= |made|
      && (forall i | 0 <= i < |old(made)| :: made[i] == old(made)[i])
      && (forall i | |old(made)| <= i < |made| :: fresh(made[i]))
    }

    method FromTable(table: map<nat, ChannelObject>, key: nat, otherwise: Error) returns (t: TargetObject)
      ensures t == if key in table then FoundObject(table[key]) else MissingObject(otherwise)
    {
      if key in table {
        t := FoundObject(table[key]);
      } else {
        t := MissingObject(otherwise);
      }
    }

    ghost predicate Represents(t: TargetObject, target: Circuit.Target)
      reads this, made, states
    {
      match t
      case FoundObject(channel) =>
        target.Found? && Made(channel) && channel.serial == target.ref && View() == target.circuit
      case DroppedObject => target.Dropped?
      case MissingObject(error) => target == Circuit.Missing(error)
    }

    method Identify(cmd: Command) returns (t: TargetObject)
      requires Valid()
      modifies this`channels, this`ioids, this`made
      ensures Valid() && MadeGrew()
      ensures Represents(t, Circuit.Identify(old(View()), cmd))
      ensures !t.FoundObject? ==> View() == old(View())
    {
      var unknown := GetException(ours, cmd.kind);
      var id := cmd.SubscriptionId();
      if cmd.kind.NamesSid() {
        t := FromTable(channelsSid, cmd.Sid(), unknown);
      } else if cmd.kind.ClosesIo() {
        t := PopTransaction(cmd, unknown);
      } else if cmd.kind.EventCancelRequest? || cmd.kind.EventAddResponse? || cmd.kind.EventCancelResponse? {
        if id in eventAdds {
          t := FromTable(channelsSid, eventAdds[id].Sid(), KeyError);
        } else if cmd.kind.EventCancelResponse? {
          t := MissingObject(AttributeError);
        } else if cmd.kind.EventAddResponse? && cmd.payloadSize == 0 {
          t := DroppedObject;
        } else {
          t := MissingObject(unknown);
        }
      } else if cmd.kind.CreateChanRequest? {
        if cmd.Cid() in channels {
          t := FoundObject(channels[cmd.Cid()]);
        } else if cmd.nameParses {
          var channel := NewChannel(cmd.Cid());
          t := FoundObject(channel);
        } else {
          t := MissingObject(FilterValidationError);
        }
      } else {
        t := FromTable(channels, cmd.Cid(), KeyError);
      }
    }

    /** A response takes its transaction out of the table before it is validated. */
    method PopTransaction(cmd: Command, unknown: Error) returns (t: TargetObject)
      requires Valid() && cmd.kind.ClosesIo() && unknown == GetException(ours, cmd.kind)
      modifies this`ioids
      ensures Valid()
      ensures Represents(t, Circuit.Identify(old(View()), cmd))
      ensures !t.FoundObject? ==> View() == old(View())
    {
      t := FromTable(ioids, cmd.Ioid(), unknown);
      if t.FoundObject? {
        RefsWithout(ioids, cmd.Ioid());
        ioids := ioids - {cmd.Ioid()};
      }
    }

    method CheckSubscription(cmd: Command) returns (error: Option<Error>)
      ensures error == Circuit.SubscriptionError(View(), cmd)
    {
      error := None;
      var kind, id := cmd.kind, cmd.SubscriptionId();
      if (kind.EventAddResponse? || kind.EventCancelRequest? || kind.EventCancelResponse?) && id in eventAdds {
        var add := eventAdds[id];
        if !add.KnownType() || !cmd.KnownType() {
          return Some(ValueError);
        }
        if add.dataType != cmd.dataType {
          return Some(GetException(ours, kind));
        }
        if kind.EventAddResponse? {
          if add.dataCount > 0 && add.dataCount != cmd.dataCount {
            return Some(GetException(ours, kind));
          }
        } else if add.Sid() != cmd.Sid() {
          return Some(GetException(ours, kind));
        }
      }
    }

    // ----- stepping that channel

    method StepChannel(channel: ChannelObject, cmd: Command) returns (error: Option<Error>)
      requires Valid() && Made(channel)
      modifies channel, states
      ensures Valid()
      ensures Circuit.Checked(View(), error) == Circuit.StepChannel(old(View()), channel.serial, cmd)
    {
      if cmd.kind.CreateChanResponse? && !cmd.KnownType() {
        return Some(ValueError);
      }
      error := channel.ProcessCommand(ours, cmd);
      assert Store() == old(Store())[channel.serial := channel.View()];
    }

    // ----- what an accepted command does to the tables

    method SetRights(channel: ChannelObject, rights: nat)
      requires Valid() && Made(channel)
      modifies channel`accessRights
      ensures Valid()
      ensures Circuit.Accept(View()) == Circuit.SetRights(old(View()), channel.serial, rights)
    {
      channel.accessRights := Some(rights);
      assert Store() == old(Store())[channel.serial := channel.View()];
    }

    method EnterSid(channel: ChannelObject, sid: nat)
      requires Valid() && Made(channel)
      modifies channel`sid, channel`version, this`channelsSid
      ensures Valid()
      ensures Circuit.Accept(View()) == Circuit.EnterSid(old(View()), channel.serial, sid)
    {
      channel.sid := Some(sid);
      channel.version := version;
      channelsSid := channelsSid[sid := channel];
      assert Store() == old(Store())[channel.serial := channel.View()];
      assert Refs(channelsSid) == Refs(old(channelsSid))[sid := channel.serial];
    }

    method OpenIo(channel: ChannelObject, ioid: nat)
      requires Valid() && Made(channel)
      modifies this`ioids
      ensures Valid()
      ensures Circuit.Accept(View()) == Circuit.OpenIo(old(View()), channel.serial, ioid)
    {
      ioids := ioids[ioid := channel];
      assert Refs(ioids) == Refs(old(ioids))[ioid := channel.serial];
    }

    lemma MadeIsStored(channel: ChannelObject)
      requires Valid() && Made(channel)
      ensures channel.serial < |View().store| && View().store[channel.serial] == channel.View()
      ensures View().channels.Keys == channels.Keys && View().channelsSid.Keys == channelsSid.Keys
    {}

    method ForgetSid(sid: nat)
      requires Valid()
      modifies this`channelsSid
      ensures Valid()
      ensures View() == old(View()).(channelsSid := old(View()).channelsSid - {sid})
    {
      RefsWithout(channelsSid, sid);
      channelsSid := channelsSid - {sid};
    }

    method ForgetCid(cid: nat)
      requires Valid()
      modifies this`channels
      ensures Valid()
      ensures View() == old(View()).(channels := old(View()).channels - {cid})
    {
      RefsWithout(channels, cid);
      channels := channels - {cid};
    }

    /** Three removals, each of which may fail after the ones before it took effect. */
    method RemoveChannel(channel: ChannelObject) returns (outcome: Circuit.Outcome)
      requires Valid() && Made(channel)
      modifies this`channels, this`channelsSid, this`ioids
      ensures Valid()
      ensures Circuit.Result(View(), outcome) == Circuit.RemoveChannel(old(View()), channel.serial)
    {
      hide Circuit.WithoutChannel;
      MadeIsStored(channel);
      if channel.sid == None || channel.sid.value !in channelsSid {
        return Circuit.Rejected(KeyError);
      }
      ForgetSid(channel.sid.value);
      if channel.cid !in channels {
        return Circuit.Rejected(KeyError);
      }
      ForgetCid(channel.cid);
      PurgeTransactions(channel);
      outcome := Circuit.Accepted;
    }

    /** Drop every transaction of this very channel object. */
    method PurgeTransactions(channel: ChannelObject)
      requires Valid() && Made(channel)
      modifies this`ioids
      ensures Valid()
      ensures View() == old(View()).(ioids := Circuit.WithoutChannel(old(View()).ioids, channel.serial))
    {
      var doomed := set ioid | ioid in ioids && ioids[ioid] == channel;
      while doomed != {}
        invariant Valid()
        invariant ioids.Keys <= old(ioids).Keys && doomed <= ioids.Keys
        invariant forall ioid <- ioids :: ioids[ioid] == old(ioids)[ioid]
        invariant forall ioid <- old(ioids) :: ioid !in ioids ==> old(ioids)[ioid] == channel
        invariant forall ioid <- ioids :: ioids[ioid] == channel ==> ioid in doomed
        invariant forall ioid <- doomed :: old(ioids)[ioid] == channel
      {
        var ioid :| ioid in doomed;
        ioids := ioids - {ioid};
        doomed := doomed - {ioid};
      }
      forall ioid <- old(ioids)
        ensures ioid in ioids <==> old(ioids)[ioid].serial != channel.serial
      {
        assert Made(old(ioids)[ioid]);
      }
    }

    method ApplyEffects(channel: ChannelObject, cmd: Command) returns (outcome: Circuit.Outcome)
      requires Valid() && Made(channel)
      modifies this`channels, this`channelsSid, this`ioids, this`eventAdds, this`eventCancels
      modifies channel`sid, channel`version, channel`accessRights
      ensures Valid()
      ensures Circuit.Result(View(), outcome) == Circuit.Effects(old(View()), channel.serial, cmd)
    {
      var kind, id := cmd.kind, cmd.SubscriptionId();
      outcome := Circuit.Accepted;
      if kind.AccessRightsResponse? {
        SetRights(channel, cmd.parameter2);
      } else if kind.CreateChanResponse? {
        EnterSid(channel, cmd.Sid());
      } else if kind.ServerDisconnResponse? || kind.ClearChannelResponse? {
        outcome := RemoveChannel(channel);
      } else if kind.OpensIo() {
        OpenIo(channel, cmd.Ioid());
      } else if kind.EventAddRequest? {
        eventAdds := eventAdds[id := cmd];
      } else if kind.EventCancelRequest? {
        if id !in eventAdds {
          return Circuit.Rejected(KeyError);
        }
        eventCancels := eventCancels[id := eventAdds[id]];
      } else if kind.EventCancelResponse? {
        if id !in eventAdds {
          return Circuit.Rejected(KeyError);
        }
        eventAdds := eventAdds - {id};
        if id !in eventCancels {
          return Circuit.Rejected(KeyError);
        }
        eventCancels := eventCancels - {id};
      }
    }

    method ProcessForChannel(cmd: Command) returns (outcome: Circuit.Outcome)
      requires Valid()
      modifies this, made, states
      ensures Valid() && MadeGrew()
      ensures old(View()).Wf()
      ensures Circuit.Result(View(), outcome) == Circuit.ProcessForChannel(old(View()), cmd)
    {
      ViewIsWf();
      var t := Identify(cmd);
      match t {
        case DroppedObject => outcome := Circuit.Ignored;
        case MissingObject(error) => outcome := Circuit.Rejected(error);
        case FoundObject(channel) =>
          var wrong := CheckSubscription(cmd);
          if wrong != None {
            return Circuit.Rejected(wrong.value);
          }
          var refused := StepChannel(channel, cmd);
          if refused != None {
            return Circuit.Rejected(refused.value);
          }
          outcome := ApplyEffects(channel, cmd);
      }
    }

    // ----- the circuit's own state machine

    /** The listed channels are the ones whose number is in the table of the View. */
    lemma ListedNumbers(i: nat)
      requires Valid() && i < |made|
      ensures made[i] in channels.Values <==> i in Refs(channels).Values
    {
      if made[i] in channels.Values {
        var cid :| cid in channels && channels[cid] == made[i];
        assert Refs(channels)[cid] == i;
      }
      if i in Refs(channels).Values {
        var cid :| cid in Refs(channels) && Refs(channels)[cid] == i;
        assert channels[cid] == made[i];
      }
    }

    /** Every listed channel reacts to the phases of the circuit. */
    method UpdateListed()
      requires Valid()
      modifies made, states
      ensures Valid()
      ensures View() == Circuit.UpdateListed(old(View()))
    {
      var todo := channels.Values;
      while todo != {}
        invariant Valid() && todo <= channels.Values
        invariant states.states == old(states.states)
        invariant forall i | 0 <= i < |made| ::
                    made[i].View() ==
                    if made[i] in channels.Values && made[i] !in todo
                    then Circuit.UpdatedChannel(old(made[i].View()), states.states)
                    else old(made[i].View())
      {
        var channel :| channel in todo;
        LockStep.UpdateNeverWritesCircuit(channel.Both());
        channel.Update();
        todo := todo - {channel};
      }
      forall i | 0 <= i < |made|
        ensures Store()[i] == Circuit.UpdateListed(old(View())).store[i]
      {
        ListedNumbers(i);
      }
      assert Store() == Circuit.UpdateListed(old(View())).store;
    }

    method SetPhases(phases: CircuitPhases)
      requires Valid()
      modifies states
      ensures Valid() && View() == old(View()).(phases := phases)
    {
      states.states := phases;
      assert Store() == old(Store());
    }

    method StepCircuitRole(role: Role, kind: Kind) returns (error: Option<Error>)
      requires Valid()
      modifies made, states
      ensures Valid()
      ensures Circuit.Checked(View(), error) == Circuit.StepCircuitRole(old(View()), role, kind)
    {
      ghost var before := View();
      assert before.phases == states.states;
      hide Circuit.UpdateListed, CircuitTable, View, Store, Valid;
      match CircuitTable(role, states.states.Get(role), kind) {
        case None =>
          error := Some(GetException(role, kind));
        case Some(phase) =>
          SetPhases(states.states.Set(role, phase));
          UpdateListed();
          error := None;
      }
    }

    /** Every listed channel takes over the agreed version. */
    method SetListedVersion(agreed: nat)
      requires Valid()
      modifies made
      ensures Valid()
      ensures forall i | 0 <= i < |made| ::
                made[i].View() ==
                if made[i] in channels.Values then old(made[i].View()).(version := agreed) else old(made[i].View())
    {
      var todo := channels.Values;
      while todo != {}
        invariant Valid() && todo <= channels.Values
        invariant forall i | 0 <= i < |made| ::
                    made[i].View() ==
                    if made[i] in channels.Values && made[i] !in todo
                    then old(made[i].View()).(version := agreed)
                    else old(made[i].View())
      {
        var channel :| channel in todo;
        channel.version := agreed;
        todo := todo - {channel};
      }
    }

    method LowerVersion(offered: nat)
      requires Valid()
      modifies made, this`version
      ensures Valid()
      ensures View() == Circuit.LowerVersion(old(View()), offered)
    {
      version := if offered < version then offered else version;
      SetListedVersion(version);
      forall i | 0 <= i < |made|
        ensures Store()[i] == Circuit.LowerVersion(old(View()), offered).store[i]
      {
        ListedNumbers(i);
      }
      assert Store() == Circuit.LowerVersion(old(View()), offered).store;
    }

    method Negotiate(cmd: Command) returns (outcome: Circuit.Outcome)
      requires Valid()
      modifies made, this`version, this`priority
      ensures Valid()
      ensures Circuit.Result(View(), outcome) == Circuit.Negotiate(old(View()), cmd)
    {
      outcome := Circuit.Accepted;
      if cmd.kind.VersionRequest? {
        if priority == None {
          priority := Some(cmd.Priority());
          assert Store() == old(Store());
        } else if priority.value != cmd.Priority() {
          return Circuit.Rejected(GetException(ours, cmd.kind));
        }
        LowerVersion(cmd.Version());
      } else if cmd.kind.VersionResponse? {
        if cmd.Version() == 0 {
          return;
        }
        LowerVersion(cmd.Version());
      }
    }

    method ProcessForCircuit(cmd: Command) returns (outcome: Circuit.Outcome)
      requires Valid()
      modifies made, states, this`version, this`priority
      ensures Valid()
      ensures Circuit.Result(View(), outcome) == Circuit.ProcessForCircuit(old(View()), cmd)
    {
      var refused := StepCircuitRole(ours, cmd.kind);
      if refused == None {
        refused := StepCircuitRole(ours.Other(), cmd.kind);
      }
      if refused != None {
        return Circuit.Rejected(refused.value);
      }
      outcome := Negotiate(cmd);
    }

    // ----- every command

    /** The one way in for commands sent and received. */
    method ProcessCommand(cmd: Command) returns (outcome: Circuit.Outcome)
      requires Valid()
      modifies this, made, states
      ensures Valid() && MadeGrew()
      ensures old(View()).Wf()
      ensures Circuit.Result(View(), outcome) == Circuit.Process(old(View()), cmd)
    {
      ViewIsWf();
      var meant := cmd;
      var id := cmd.SubscriptionId();
      if cmd.kind.EventAddResponse? && cmd.payloadSize == 0 && id in eventCancels {
        if !cmd.KnownType() {
          return Circuit.Rejected(ValueError);
        }
        meant := Command(EventCancelResponse, 0, cmd.dataType, cmd.dataCount,
                         eventCancels[id].Sid(), id, cmd.nameParses);
      }
      if meant.kind.ForChannel() {
        outcome := ProcessForChannel(meant);
      } else {
        outcome := ProcessForCircuit(meant);
      }
    }

    // ----- bytes in and out

    /** recv. An exception discards the commands parsed in the same call, but their bytes
        are gone from `data`. */
    method Recv(buffers: seq<Bytes>) returns (r: Reception)
      requires Valid()
      modifies this`data
      ensures Valid() && View() == old(View())
      ensures if Joined(buffers) == [] then r == ConnectionClosed && data == old(data)
              else
                var d := Stream.Drain(old(data) + Joined(buffers), ours.Other());
                && data == d.rest
                && r == match d.error
                        case None => CommandsRead(d.commands, d.missing)
                        case Some(error) => ReadError(error)
    {
      hide Joined, Stream.ReadFromBytestream;
      var received := Joined(buffers);
      if received == [] {
        return ConnectionClosed;
      }
      data := data + received;
      var commands: seq<Messages.Message> := [];
      ghost var all := data;
      while true
        invariant Stream.Drain(all, ours.Other()) == Stream.After(commands, Stream.Drain(data, ours.Other()))
        invariant Valid() && View() == old(View())
        decreases |data|
      {
        match Stream.ReadFromBytestream(data, ours.Other()) {
          case NeedData(missing) =>
            return CommandsRead(commands, missing);
          case Raised(error) =>
            return ReadError(error);
          case Got(command, rest) =>
            Stream.AfterBoth(commands, [command], Stream.Drain(rest, ours.Other()));
            commands := commands + [command];
            data := rest;
        }
      }
    }

    /** send. The commands before a refused one keep their effect, and nothing is sent. */
    method Send(ms: seq<Messages.Message>, parses: Bytes -> bool) returns (r: Dispatch)
      requires Valid()
      modifies this, made, states
      ensures Valid() && MadeGrew()
      ensures old(View()).Wf()
      ensures var all := Runs.ProcessAll(old(View()), Delivery.AsCommands(ms, parses));
              && View() == all.circuit
              && if all.outcome.Rejected? then r == Refused(all.outcome.error)
                 else r.Buffers? && Joined(r.buffers) == RoundTrips.Sent(ms)
    {
      hide Circuit.Process, Runs.ProcessAll, Delivery.AsCommands, Delivery.AsCommand, RoundTrips.Sent, Joined;
      ViewIsWf();
      ghost var initial := View();
      Delivery.NothingSent(initial, parses);
      var buffers: seq<Bytes> := [];
      assert ms[..0] == [];
      for i := 0 to |ms|
        invariant Valid() && MadeGrew()
        invariant Runs.ProcessAll(initial, Delivery.AsCommands(ms[..i], parses)) == Circuit.Accept(View())
        invariant Joined(buffers) == RoundTrips.Sent(ms[..i])
      {
        var error := ProcessNext(ms, i, parses, initial);
        if error != None {
          return Refused(error.value);
        }
        Delivery.SendNext(buffers, ms, i);
        buffers := buffers + [Headers.HeaderBytes(ms[i].header)] + ms[i].buffers;
      }
      assert ms[..|ms|] == ms;
      r := Buffers(buffers);
    }

    /** The turn of message number `i`, in terms of all the messages. */
    method ProcessNext(ms: seq<Messages.Message>, i: nat, parses: Bytes -> bool, ghost initial: Circuit.Circuit)
      returns (error: Option<Error>)
      requires Valid() && initial.Wf() && i < |ms|
      requires Runs.ProcessAll(initial, Delivery.AsCommands(ms[..i], parses)) == Circuit.Accept(View())
      modifies this, made, states
      ensures Valid() && MadeGrew()
      ensures match error
              case None =>
                Runs.ProcessAll(initial, Delivery.AsCommands(ms[..i + 1], parses)) == Circuit.Accept(View())
              case Some(refusal) =>
                Runs.ProcessAll(initial, Delivery.AsCommands(ms, parses))
                == Circuit.Result(View(), Circuit.Rejected(refusal))
    {
      hide Circuit.Process, Runs.ProcessAll, Delivery.AsCommands, Delivery.AsCommand;
      var outcome := ProcessCommand(Delivery.AsCommand(ms[i], parses));
      Delivery.ProcessNext(initial, ms, i, parses, old(View()));
      error := if outcome.Rejected? then Some(outcome.error) else None;
    }

    /** The connection is lost: both roles at once, then every listed channel. */
    method Disconnect()
      requires Valid()
      modifies made, states
      ensures Valid()
      ensures View() == Circuit.Disconnect(old(View()))
    {
      SetPhases(DOWN);
      UpdateListed();
    }
  }
}
