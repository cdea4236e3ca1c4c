/** Over any operations of a server: who is subscribed, and what a subscriber is told. */
module Subscriptions {
  import opened Protocol
  import opened Alarms
  import opened Caches
  import opened Publications

  // ----- what the groups hold

  /** The subscriptions of one queue for one data type. */
  function SpecsOf(groups: seq<Group>, queue: nat, dataType: nat): set<nat> {
    set k, x | 0 <= k < |groups| && groups[k].queue == queue && groups[k].dataType == dataType
               && x in groups[k].specs :: x
  }

  /** One group for each queue and data type. */
  predicate Distinct(groups: seq<Group>) {
    forall j, k | 0 <= j < k < |groups| ::
      groups[j].queue != groups[k].queue || groups[j].dataType != groups[k].dataType
  }

  predicate HasGroup(groups: seq<Group>, queue: nat, dataType: nat) {
    exists k | 0 <= k < |groups| :: groups[k].queue == queue && groups[k].dataType == dataType
  }

  lemma SpecsOfFirst(groups: seq<Group>, queue: nat, dataType: nat)
    requires groups != []
    ensures SpecsOf(groups, queue, dataType) ==
            (if groups[0].queue == queue && groups[0].dataType == dataType then groups[0].specs else {})
            + SpecsOf(groups[1..], queue, dataType)
    ensures HasGroup(groups, queue, dataType) <==>
              (groups[0].queue == queue && groups[0].dataType == dataType) || HasGroup(groups[1..], queue, dataType)
    ensures Distinct(groups) <==> Distinct(groups[1..]) && !HasGroup(groups[1..], groups[0].queue, groups[0].dataType)
  {
    assert forall k | 0 < k < |groups| :: groups[k] == groups[1..][k - 1];
    assert forall k | 0 <= k < |groups[1..]| :: groups[1..][k] == groups[k + 1];
  }

  /** A subscription joins those of its queue and data type, and no others. */
  lemma {:induction false} SpecAdded(groups: seq<Group>, queue: nat, dataType: nat, spec: nat, q: nat, t: nat)
    ensures SpecsOf(AddSpec(groups, queue, dataType, spec), q, t) ==
            SpecsOf(groups, q, t) + (if q == queue && t == dataType then {spec} else {})
    ensures HasGroup(AddSpec(groups, queue, dataType, spec), q, t) <==>
              HasGroup(groups, q, t) || (q == queue && t == dataType)
    decreases |groups|
  {
    var after := AddSpec(groups, queue, dataType, spec);
    SpecsOfFirst(after, q, t);
    if groups != [] {
      SpecsOfFirst(groups, q, t);
      if groups[0].queue != queue || groups[0].dataType != dataType {
        SpecAdded(groups[1..], queue, dataType, spec, q, t);
        assert after[1..] == AddSpec(groups[1..], queue, dataType, spec);
      }
      hide SpecsOf, HasGroup;
    }
  }

  lemma {:induction false} StaysDistinct(groups: seq<Group>, queue: nat, dataType: nat, spec: nat)
    requires Distinct(groups)
    ensures Distinct(AddSpec(groups, queue, dataType, spec))
    decreases |groups|
  {
    if groups != [] {
      var after := AddSpec(groups, queue, dataType, spec);
      SpecsOfFirst(groups, queue, dataType);
      SpecsOfFirst(after, queue, dataType);
      if groups[0].queue != queue || groups[0].dataType != dataType {
        StaysDistinct(groups[1..], queue, dataType, spec);
        SpecAdded(groups[1..], queue, dataType, spec, groups[0].queue, groups[0].dataType);
        assert after[1..] == AddSpec(groups[1..], queue, dataType, spec);
      }
      hide SpecsOf, HasGroup, Distinct;
    }
  }

  /** Only this subscription is removed. */
  lemma SpecRemoved(ch: Chan, queue: nat, dataType: nat, spec: nat, q: nat, t: nat)
    ensures var after := Unsubscribed(ch, queue, dataType, spec).groups;
            && SpecsOf(after, q, t) ==
               SpecsOf(ch.groups, q, t) - (if q == queue && t == dataType then {spec} else {})
            && (Distinct(ch.groups) ==> Distinct(after))
  {
    var after := Unsubscribed(ch, queue, dataType, spec).groups;
    var gone := if q == queue && t == dataType then {spec} else {};
    assert |after| == |ch.groups|;
    assert forall k | 0 <= k < |after| ::
             && after[k].queue == ch.groups[k].queue && after[k].dataType == ch.groups[k].dataType
             && after[k].specs == if after[k].queue == queue && after[k].dataType == dataType
                                  then ch.groups[k].specs - {spec} else ch.groups[k].specs;
    hide Caches.Unsubscribed;
    forall x | x in SpecsOf(ch.groups, q, t) - gone
      ensures x in SpecsOf(after, q, t)
    {
      var k :| 0 <= k < |after| && ch.groups[k].queue == q && ch.groups[k].dataType == t && x in ch.groups[k].specs;
      assert x in after[k].specs;
    }
  }

  // ----- over any operations

  /** Only subscribing and unsubscribing change the groups, those of their own channel. */
  lemma StepOnGroups(s: Server, op: Operation, convert: Converter, i: nat)
    requires s.Wf() && Applies(s, op) && i < |s.channels|
    ensures |Step(s, op, convert).channels| == |s.channels|
    ensures Step(s, op, convert).channels[i].groups ==
            if op.Subscribe? && op.channel == i then AddSpec(s.channels[i].groups, op.queue, op.dataType, op.spec)
            else if op.Unsubscribe? && op.channel == i
            then Unsubscribed(s.channels[i], op.queue, op.dataType, op.spec).groups
            else s.channels[i].groups
  {
    hide EachGroupOnce, Written, Announced, AddSpec, Caches.Unsubscribed, BusyBefore;
    match op {
      case WriteAlarm(a, w, flags) =>
        hide Step;
        WriteAlarmTells(s, a, w, flags, convert);
      case WriteMetadata(j, md) =>
        hide Step;
        MetadataTells(s, j, md, convert);
      case Write(j, verdict, flags, md, now) =>
        hide Step;
        WriteOnGroups(s, j, verdict, flags, md, now, convert, i);
      case _ =>
    }
  }

  lemma WriteOnGroups(
      s: Server, j: nat, verdict: Verdict, flags: set<Flag>, md: Metadata, now: int, convert: Converter, i: nat)
    requires s.Wf() && j < |s.channels| && i < |s.channels|
    ensures var s1 := Step(s, Write(j, verdict, flags, md, now), convert);
            |s1.channels| == |s.channels| && s1.channels[i].groups == s.channels[i].groups
  {
    hide EachGroupOnce, BusyBefore, Written, Step;
    match verdict {
      case Take(value) => ValueTells(s, j, value, flags, md, now, convert);
      case _ => RefusalTells(s, j, flags, md, now, convert);
    }
  }

  /** Subscribed at step `m`, and not unsubscribed since. */
  predicate SubscribedSince(ops: seq<Operation>, m: nat, n: nat, i: nat, queue: nat, dataType: nat, spec: nat)
    requires m < n <= |ops|
  {
    && ops[m] == Subscribe(i, queue, dataType, spec)
    && forall j | m < j < n :: ops[j] != Unsubscribe(i, queue, dataType, spec)
  }

  /** Subscribed before step `n`, and not taken back by then. */
  predicate Subscribed(ops: seq<Operation>, n: nat, i: nat, queue: nat, dataType: nat, spec: nat)
    requires n <= |ops|
  {
    exists m: nat | m < n :: SubscribedSince(ops, m, n, i, queue, dataType, spec)
  }

  lemma StepOfHistory(states: seq<Server>, ops: seq<Operation>, convert: Converter, n: nat)
    requires IsHistory(states, ops, convert) && n < |ops|
    ensures states[n].Wf() && Applies(states[n], ops[n]) && states[n + 1] == Step(states[n], ops[n], convert)
  {
    hide Step;
  }

  lemma {:induction false} ChannelsStay(states: seq<Server>, ops: seq<Operation>, convert: Converter, n: nat)
    requires IsHistory(states, ops, convert) && n < |states|
    ensures |states[n].channels| == |states[0].channels|
    ensures forall i | 0 <= i < |states[0].channels| ::
              Distinct(states[0].channels[i].groups) ==> Distinct(states[n].channels[i].groups)
  {
    if n > 0 {
      ChannelsStay(states, ops, convert, n - 1);
      StepOfHistory(states, ops, convert, n - 1);
      var s, op := states[n - 1], ops[n - 1];
      forall i | 0 <= i < |s.channels|
        ensures |states[n].channels| == |s.channels|
        ensures Distinct(s.channels[i].groups) ==> Distinct(states[n].channels[i].groups)
      {
        GroupsStayDistinct(s, op, convert, i);
      }
      if s.channels == [] {
        NoChannels(s, op, convert);
      }
      hide IsHistory, Step, Distinct;
    }
  }

  lemma NoChannels(s: Server, op: Operation, convert: Converter)
    requires s.Wf() && Applies(s, op) && s.channels == []
    ensures Step(s, op, convert).channels == []
  {}

  lemma GroupsStayDistinct(s: Server, op: Operation, convert: Converter, i: nat)
    requires s.Wf() && Applies(s, op) && i < |s.channels|
    ensures |Step(s, op, convert).channels| == |s.channels|
    ensures Distinct(s.channels[i].groups) ==> Distinct(Step(s, op, convert).channels[i].groups)
  {
    StepOnGroups(s, op, convert, i);
    hide Step, Distinct, AddSpec, Caches.Unsubscribed;
    if op.Subscribe? && op.channel == i && Distinct(s.channels[i].groups) {
      StaysDistinct(s.channels[i].groups, op.queue, op.dataType, op.spec);
    } else if op.Unsubscribe? && op.channel == i {
      SpecRemoved(s.channels[i], op.queue, op.dataType, op.spec, 0, 0);
    }
  }

  /** A subscription is listed exactly if it was made and not taken back since. */
  lemma {:induction false} ListedIfSubscribed(
      states: seq<Server>, ops: seq<Operation>, convert: Converter, n: nat,
      i: nat, queue: nat, dataType: nat, spec: nat)
    requires IsHistory(states, ops, convert) && n < |states| && i < |states[0].channels|
    requires states[0].channels[i].groups == []
    ensures |states[n].channels| == |states[0].channels|
    ensures spec in SpecsOf(states[n].channels[i].groups, queue, dataType) <==>
              Subscribed(ops, n, i, queue, dataType, spec)
  {
    if n > 0 {
      ListedIfSubscribed(states, ops, convert, n - 1, i, queue, dataType, spec);
      StepOfHistory(states, ops, convert, n - 1);
      hide IsHistory, Step;
      SpecsAfterStep(states[n - 1], ops[n - 1], convert, i, queue, dataType);
      SinceOneMore(ops, n - 1, i, queue, dataType, spec);
      hide SpecsOf, SubscribedSince;
    }
  }

  lemma SpecsAfterStep(s: Server, op: Operation, convert: Converter, i: nat, queue: nat, dataType: nat)
    requires s.Wf() && Applies(s, op) && i < |s.channels|
    ensures |Step(s, op, convert).channels| == |s.channels|
    ensures SpecsOf(Step(s, op, convert).channels[i].groups, queue, dataType) ==
            var specs := SpecsOf(s.channels[i].groups, queue, dataType);
            if op.Subscribe? && op.channel == i && op.queue == queue && op.dataType == dataType then specs + {op.spec}
            else if op.Unsubscribe? && op.channel == i && op.queue == queue && op.dataType == dataType
            then specs - {op.spec}
            else specs
  {
    StepOnGroups(s, op, convert, i);
    hide Step, SpecsOf, AddSpec, Caches.Unsubscribed;
    if op.Subscribe? && op.channel == i {
      SpecAdded(s.channels[i].groups, op.queue, op.dataType, op.spec, queue, dataType);
    } else if op.Unsubscribe? && op.channel == i {
      SpecRemoved(s.channels[i], op.queue, op.dataType, op.spec, queue, dataType);
    }
  }

  lemma SinceOneMore(ops: seq<Operation>, n: nat, i: nat, queue: nat, dataType: nat, spec: nat)
    requires n < |ops|
    ensures Subscribed(ops, n + 1, i, queue, dataType, spec) <==>
              || ops[n] == Subscribe(i, queue, dataType, spec)
              || (ops[n] != Unsubscribe(i, queue, dataType, spec) && Subscribed(ops, n, i, queue, dataType, spec))
  {
    if ops[n] == Subscribe(i, queue, dataType, spec) {
      assert SubscribedSince(ops, n, n + 1, i, queue, dataType, spec);
    } else if ops[n] != Unsubscribe(i, queue, dataType, spec) && Subscribed(ops, n, i, queue, dataType, spec) {
      var m: nat :| m < n && SubscribedSince(ops, m, n, i, queue, dataType, spec);
      assert SubscribedSince(ops, m, n + 1, i, queue, dataType, spec);
    }
    if Subscribed(ops, n + 1, i, queue, dataType, spec) && ops[n] != Subscribe(i, queue, dataType, spec) {
      var m: nat :| m < n + 1 && SubscribedSince(ops, m, n + 1, i, queue, dataType, spec);
      assert SubscribedSince(ops, m, n, i, queue, dataType, spec);
    }
  }

  // ----- what a subscriber is told

  lemma {:induction false} BusyMonotonic(groups: seq<Group>, j: nat, k: nat)
    requires j < k <= |groups|
    ensures BusyBefore(groups, j) <= BusyBefore(groups, k)
    ensures groups[j].specs != {} ==> BusyBefore(groups, j) < BusyBefore(groups, k)
  {
    hide BusyBefore;
    BusySnoc(groups, k - 1);
    if j < k - 1 {
      BusyMonotonic(groups, j, k - 1);
    }
  }

  /** Every update of a publication is that of some group. */
  lemma {:induction false} GroupOfRank(groups: seq<Group>, n: nat, rank: nat) returns (k: nat)
    requires n <= |groups| && rank < BusyBefore(groups, n)
    ensures k < n && groups[k].specs != {} && BusyBefore(groups, k) == rank
  {
    if n == 0 {
      NoneBusy(groups);
      assert false;
    }
    hide BusyBefore;
    BusySnoc(groups, n - 1);
    if rank < BusyBefore(groups, n - 1) {
      k := GroupOfRank(groups, n - 1, rank);
    } else {
      k := n - 1;
    }
  }

  /** The position among `us` of the one update for this queue and data type. */
  predicate OnlyAt(us: seq<Update>, at: nat, queue: nat, dataType: nat) {
    && at < |us|
    && forall j | 0 <= j < |us| :: j == at <==> us[j].queue == queue && us[j].dataType == dataType
  }

  lemma GroupAt(groups: seq<Group>, queue: nat, dataType: nat) returns (k: nat)
    requires Distinct(groups) && SpecsOf(groups, queue, dataType) != {}
    ensures k < |groups| && groups[k].queue == queue && groups[k].dataType == dataType
    ensures groups[k].specs == SpecsOf(groups, queue, dataType)
    ensures forall j | 0 <= j < |groups| && j != k :: groups[j].queue != queue || groups[j].dataType != dataType
  {
    var x :| x in SpecsOf(groups, queue, dataType);
    k :| 0 <= k < |groups| && groups[k].queue == queue && groups[k].dataType == dataType && x in groups[k].specs;
  }

  /** One publication: there is an update for a queue and a data type if and only if there
      are subscriptions, and then only one, for all of them, with a fresh reading. */
  lemma OneUpdatePerType(
      ch: Chan, us: seq<Update>, alarm: Alarm, convert: Converter, flags: set<Flag>, queue: nat, dataType: nat)
    requires Distinct(ch.groups) && EachGroupOnce(ch, us, alarm, convert, flags)
    ensures var specs := SpecsOf(ch.groups, queue, dataType);
            if specs == {} then forall u <- us :: u.queue != queue || u.dataType != dataType
            else exists at: nat ::
                   && OnlyAt(us, at, queue, dataType)
                   && us[at] == Update(queue, dataType, specs, Read(ch, alarm, convert, dataType), flags)
  {
    var specs := SpecsOf(ch.groups, queue, dataType);
    forall j | 0 <= j < |us| && us[j].queue == queue && us[j].dataType == dataType
      ensures specs != {}
    {
      var k := GroupOfRank(ch.groups, |ch.groups|, j);
      var x :| x in ch.groups[k].specs;
      assert x in specs;
    }
    if specs != {} {
      var k := GroupAt(ch.groups, queue, dataType);
      var at := BusyBefore(ch.groups, k);
      forall j | 0 <= j < |us|
        ensures j == at <==> us[j].queue == queue && us[j].dataType == dataType
      {
        var g := GroupOfRank(ch.groups, |ch.groups|, j);
        assert us[j].queue == ch.groups[g].queue && us[j].dataType == ch.groups[g].dataType;
      }
      assert OnlyAt(us, at, queue, dataType);
    }
  }

  /** While a subscription is open, each value that is taken reaches it: in exactly one of
      the updates that this write puts on the queues, together with the other subscriptions
      of that queue and data type, with what a fresh read gives. */
  lemma SubscriberIsTold(
      states: seq<Server>, ops: seq<Operation>, convert: Converter, n: nat,
      i: nat, queue: nat, dataType: nat, spec: nat)
    requires IsHistory(states, ops, convert) && n < |ops| && i < |states[0].channels|
    requires states[0].channels[i].groups == [] && Subscribed(ops, n, i, queue, dataType, spec)
    requires ops[n].Write? && ops[n].verdict.Take? && ops[n].channel == i
    ensures |states[n].channels| == |states[n + 1].channels| == |states[0].channels|
    ensures states[n].channels[i].sent <= states[n + 1].channels[i].sent
    ensures var now := states[n + 1].channels[i];
            var us := now.sent[|states[n].channels[i].sent|..];
            exists at: nat ::
              && OnlyAt(us, at, queue, dataType)
              && spec in us[at].specs && us[at].flags == ops[n].flags
              && us[at].reading == Read(now, states[n + 1].AlarmOf(i), convert, dataType)
  {
    ListedIfSubscribed(states, ops, convert, n, i, queue, dataType, spec);
    ChannelsStay(states, ops, convert, n);
    StepOfHistory(states, ops, convert, n);
    var s, op := states[n], ops[n];
    hide IsHistory, Step, SpecsOf, OnlyAt, EachGroupOnce;
    ValueTells(s, i, op.verdict.value, op.flags, op.md, op.now, convert);
    var now := states[n + 1].channels[i];
    var us := now.sent[|s.channels[i].sent|..];
    assert Distinct(now.groups);
    OneUpdatePerType(now, us, states[n + 1].AlarmOf(i), convert, op.flags, queue, dataType);
  }
}
