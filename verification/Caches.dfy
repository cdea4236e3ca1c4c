/** Server-side channel data with a cache of converted readings, published to
    subscribers: first as values, over whole runs of a server. */
module Caches {
  import opened Protocol
  import opened Alarms

  /** Values, timestamps and converted readings are opaque; an integer stands for each. */
  type Reading = int

  /** Everything that a conversion looks at. `config` is what never changes about the
      channel (its own type, its string encoding, its record type). */
  datatype Snapshot = Snapshot(config: int, value: int, fields: map<string, int>, timestamp: int, alarm: Alarm)

  /** `_read`: convert a snapshot to a data type. */
  type Converter = (Snapshot, nat) -> Reading

  /** The cache is filled under the type's name by subscribe and under the type itself by
      publish, but only ever looked up by name. */
  datatype Key = ByName(dataType: nat) | ByType(dataType: nat)

  /** The subscriptions of one queue for one data type. Filters by state are left out. */
  datatype Group = Group(queue: nat, dataType: nat, specs: set<nat>)

  datatype Update = Update(queue: nat, dataType: nat, specs: set<nat>, reading: Reading, flags: set<Flag>)

  datatype Chan = Chan(
    config: int, value: int, fields: map<string, int>, timestamp: int,
    pendingStatus: Option<nat>, pendingSeverity: Option<Severity>,
    content: map<Key, Reading>,
    groups: seq<Group>,
    sent: seq<Update>)                    // everything put on the queues so far

  function SnapshotOf(ch: Chan, alarm: Alarm): Snapshot {
    Snapshot(ch.config, ch.value, ch.fields, ch.timestamp, alarm)
  }

  function Read(ch: Chan, alarm: Alarm, convert: Converter, dataType: nat): Reading {
    convert(SnapshotOf(ch, alarm), dataType)
  }

  /** What a new subscriber would be told is what a fresh read gives. */
  ghost predicate Transparent(ch: Chan, alarm: Alarm, convert: Converter) {
    forall t | ByName(t) in ch.content :: ch.content[ByName(t)] == Read(ch, alarm, convert, t)
  }

  // ----- publish

  /** One update for every group that has subscriptions. */
  function Updates(groups: seq<Group>, s: Snapshot, convert: Converter, flags: set<Flag>): seq<Update>
    decreases |groups|
  {
    if groups == [] then []
    else
      var front, g := Updates(groups[..|groups| - 1], s, convert, flags), groups[|groups| - 1];
      if g.specs == {} then front
      else front + [Update(g.queue, g.dataType, g.specs, convert(s, g.dataType), flags)]
  }

  function Converted(groups: seq<Group>, s: Snapshot, convert: Converter): map<Key, Reading>
    decreases |groups|
  {
    if groups == [] then map[]
    else
      var front, g := Converted(groups[..|groups| - 1], s, convert), groups[|groups| - 1];
      if g.specs == {} then front else front[ByType(g.dataType) := convert(s, g.dataType)]
  }

  function Published(ch: Chan, alarm: Alarm, convert: Converter, flags: set<Flag>): Chan {
    var s := SnapshotOf(ch, alarm);
    ch.(content := Converted(ch.groups, s, convert), sent := ch.sent + Updates(ch.groups, s, convert, flags))
  }

  lemma {:induction false} ConvertedByType(groups: seq<Group>, s: Snapshot, convert: Converter)
    ensures forall key <- Converted(groups, s, convert) :: key.ByType?
    decreases |groups|
  {
    if groups != [] {
      ConvertedByType(groups[..|groups| - 1], s, convert);
    }
  }

  // ----- subscribe

  function AddSpec(groups: seq<Group>, queue: nat, dataType: nat, spec: nat): seq<Group>
    decreases |groups|
  {
    if groups == [] then [Group(queue, dataType, {spec})]
    else if groups[0].queue == queue && groups[0].dataType == dataType then
      [groups[0].(specs := groups[0].specs + {spec})] + groups[1..]
    else [groups[0]] + AddSpec(groups[1..], queue, dataType, spec)
  }

  function Subscribed(ch: Chan, alarm: Alarm, convert: Converter, queue: nat, dataType: nat, spec: nat): Chan {
    var reading := if ByName(dataType) in ch.content then ch.content[ByName(dataType)]
                   else Read(ch, alarm, convert, dataType);
    ch.(groups := AddSpec(ch.groups, queue, dataType, spec),
        content := ch.content[ByName(dataType) := reading],
        sent := ch.sent + [Update(queue, dataType, {spec}, reading, {})])
  }

  function Unsubscribed(ch: Chan, queue: nat, dataType: nat, spec: nat): Chan {
    ch.(groups := seq(|ch.groups|, i requires 0 <= i < |ch.groups| =>
          var g := ch.groups[i];
          if g.queue == queue && g.dataType == dataType then g.(specs := g.specs - {spec}) else g))
  }

  // ----- metadata and values

  /** A keyword argument: left out, or given, possibly as None. */
  datatype Keyword<+T> = Missing | Named(given: Option<T>)
  {
    function Get(): Option<T> {
      if Missing? then None else given
    }
  }

  datatype Metadata = Metadata(
    fields: map<string, int>, timestamp: Keyword<int>, status: Keyword<nat>, severity: Keyword<Severity>)
  {
    /** Something is written to the alarm. */
    predicate ConcernsAlarm() {
      status.Get().Some? || severity.Get().Some?
    }

    /** The alarm is mentioned, which is enough for it to be published again. */
    predicate NamesAlarm() {
      status.Named? || severity.Named?
    }
  }

  /** Only fields that the channel has are written. */
  function WithMetadata(ch: Chan, md: Metadata): Chan {
    ch.(fields := map k | k in ch.fields :: if k in md.fields then md.fields[k] else ch.fields[k],
        timestamp := if md.timestamp.Get().Some? then md.timestamp.Get().value else ch.timestamp)
  }

  /** Status and severity set aside by a handler. Whether the severity is collected
      depends on the status, as in the source. */
  function CollectedStatus(ch: Chan, alarm: Alarm): Option<nat> {
    if ch.pendingStatus.Some? && ch.pendingStatus.value != alarm.status then ch.pendingStatus else None
  }

  function CollectedSeverity(ch: Chan, alarm: Alarm): Option<Severity> {
    if ch.pendingSeverity.Some? && ch.pendingStatus != Some(alarm.status) then ch.pendingSeverity else None
  }

  function WithPending(ch: Chan, status: Option<nat>, severity: Option<Severity>): Chan {
    ch.(pendingStatus := if status.Some? then status else ch.pendingStatus,
        pendingSeverity := if severity.Some? then severity else ch.pendingSeverity)
  }

  function WithoutPending(ch: Chan): Chan {
    ch.(pendingStatus := None, pendingSeverity := None)
  }

  /** Collected values override those of the caller, and a time is always given. */
  function WithCollected(md: Metadata, status: Option<nat>, severity: Option<Severity>, now: int): Metadata {
    md.(status := if status.Some? then Named(status) else md.status,
        severity := if severity.Some? then Named(severity) else md.severity,
        timestamp := if md.timestamp.Named? then md.timestamp else Named(Some(now)))
  }

  // ----- a whole server

  /** `owner[i]` is the alarm of channel i. */
  datatype Server = Server(alarms: seq<Alarm>, channels: seq<Chan>, owner: seq<nat>)
  {
    predicate Wf() {
      |owner| == |channels| && forall i | 0 <= i < |owner| :: owner[i] < |alarms|
    }

    function AlarmOf(i: nat): Alarm
      requires Wf() && i < |channels|
    {
      alarms[owner[i]]
    }
  }

  /** What the handlers of a channel answer to a new value. */
  datatype Verdict = Take(value: int) | Skip | Raise

  datatype Operation =
    | Subscribe(channel: nat, queue: nat, dataType: nat, spec: nat)
    | Unsubscribe(channel: nat, queue: nat, dataType: nat, spec: nat)
    | SetAside(channel: nat, status: Option<nat>, severity: Option<Severity>)
    | WriteAlarm(alarm: nat, w: AlarmWrite, flags: set<Flag>)
    | WriteMetadata(channel: nat, md: Metadata)
    | Write(channel: nat, verdict: Verdict, flags: set<Flag>, md: Metadata, now: int)

  predicate Applies(s: Server, op: Operation) {
    if op.WriteAlarm? then op.alarm < |s.alarms| else op.channel < |s.channels|
  }

  function SetChannel(s: Server, i: nat, ch: Chan): Server
    requires s.Wf() && i < |s.channels|
  {
    s.(channels := s.channels[i := ch])
  }

  /** ChannelAlarm.publish */
  function PublishAlarm(s: Server, a: nat, convert: Converter, flags: set<Flag>, except: set<nat>): Server
    requires s.Wf()
  {
    s.(channels := seq(|s.channels|, i requires 0 <= i < |s.channels| =>
         if s.owner[i] == a && i !in except then Published(s.channels[i], s.AlarmOf(i), convert, flags)
         else s.channels[i]))
  }

  function AlarmWritten(s: Server, a: nat, w: AlarmWrite): Server
    requires s.Wf() && a < |s.alarms|
  {
    s.(alarms := s.alarms[a := Written(s.alarms[a], w)])
  }

  /** ChannelAlarm.write, published */
  function StepAlarm(s: Server, a: nat, w: AlarmWrite, convert: Converter, flags: set<Flag>): Server
    requires s.Wf() && a < |s.alarms|
  {
    PublishAlarm(AlarmWritten(s, a, w), a, convert, Announced(s.alarms[a], w, flags), {})
  }

  function PublishChannel(s: Server, i: nat, convert: Converter, flags: set<Flag>): Server
    requires s.Wf() && i < |s.channels|
  {
    SetChannel(s, i, Published(s.channels[i], s.AlarmOf(i), convert, flags))
  }

  /** ChannelData.write_metadata, published */
  function StepMetadata(s: Server, i: nat, md: Metadata, convert: Converter): Server
    requires s.Wf() && i < |s.channels|
  {
    var s1 := SetChannel(s, i, WithMetadata(s.channels[i], md));
    var w := OnlyStatus(md.status.Get(), md.severity.Get());
    var s2 := if md.ConcernsAlarm() then StepAlarm(s1, s.owner[i], w, convert, {})
              else s1;
    PublishChannel(s2, i, convert, {Property})
  }

  /** The accepted part of ChannelData.write: the new state is complete before anything
      is published, first to this channel and then to the others of its alarm. */
  function StepTake(s: Server, i: nat, value: int, flags: set<Flag>, md: Metadata, convert: Converter): Server
    requires s.Wf() && i < |s.channels|
  {
    var a := s.owner[i];
    var s1 := SetChannel(s, i, WithMetadata(s.channels[i].(value := value), md));
    var s2 := if md.ConcernsAlarm() then AlarmWritten(s1, a, OnlyStatus(md.status.Get(), md.severity.Get())) else s1;
    var s3 := PublishChannel(s2, i, convert, flags);
    if md.NamesAlarm() then PublishAlarm(s3, a, convert, flags, {i}) else s3
  }

  function StepWrite(
      s: Server, i: nat, verdict: Verdict, flags: set<Flag>, md: Metadata, now: int, convert: Converter): Server
    requires s.Wf() && i < |s.channels|
  {
    match verdict
    case Skip => SetChannel(s, i, WithoutPending(s.channels[i]))
    case Raise =>
      var s1 := StepAlarm(s, s.owner[i], OnlyStatus(Some(WRITE_STATUS), Some(MAJOR_ALARM)), convert, {});
      SetChannel(s1, i, WithoutPending(s1.channels[i]))
    case Take(value) =>
      var ch := s.channels[i];
      var all := WithCollected(md, CollectedStatus(ch, s.AlarmOf(i)), CollectedSeverity(ch, s.AlarmOf(i)), now);
      StepTake(SetChannel(s, i, WithoutPending(ch)), i, value, flags, all, convert)
  }

  function Step(s: Server, op: Operation, convert: Converter): Server
    requires s.Wf() && Applies(s, op)
  {
    match op
    case Subscribe(i, queue, dataType, spec) =>
      SetChannel(s, i, Subscribed(s.channels[i], s.AlarmOf(i), convert, queue, dataType, spec))
    case Unsubscribe(i, queue, dataType, spec) =>
      SetChannel(s, i, Unsubscribed(s.channels[i], queue, dataType, spec))
    case SetAside(i, status, severity) => SetChannel(s, i, WithPending(s.channels[i], status, severity))
    case WriteAlarm(a, w, flags) => StepAlarm(s, a, w, convert, flags)
    case WriteMetadata(i, md) => StepMetadata(s, i, md, convert)
    case Write(i, verdict, flags, md, now) => StepWrite(s, i, verdict, flags, md, now, convert)
  }

  // ----- the cache is transparent

  /** Between operations: every cached reading is a fresh one. */
  ghost predicate AllTransparent(s: Server, convert: Converter)
    requires s.Wf()
  {
    forall i | 0 <= i < |s.channels| :: Transparent(s.channels[i], s.AlarmOf(i), convert)
  }

  /** `after` went on from `before`: whatever it sent in the meantime agrees with a fresh
      read of the channel as it is now. */
  ghost predicate SentFresh(before: Chan, after: Chan, alarm: Alarm, convert: Converter) {
    && before.sent <= after.sent
    && forall k | |before.sent| <= k < |after.sent| ::
         after.sent[k].reading == Read(after, alarm, convert, after.sent[k].dataType)
  }

  ghost predicate AllSentFresh(before: Server, after: Server, convert: Converter)
    requires before.Wf() && after.Wf()
  {
    && |before.channels| == |after.channels|
    && forall i | 0 <= i < |after.channels| ::
         SentFresh(before.channels[i], after.channels[i], after.AlarmOf(i), convert)
  }

  lemma {:induction false} UpdatesAreFresh(groups: seq<Group>, s: Snapshot, convert: Converter, flags: set<Flag>)
    ensures forall u <- Updates(groups, s, convert, flags) :: u.reading == convert(s, u.dataType)
    decreases |groups|
  {
    if groups != [] {
      UpdatesAreFresh(groups[..|groups| - 1], s, convert, flags);
    }
  }

  lemma PublishedIsFresh(before: Chan, ch: Chan, alarm: Alarm, convert: Converter, flags: set<Flag>)
    requires before.sent == ch.sent || SentFresh(before, ch, alarm, convert)
    ensures var published := Published(ch, alarm, convert, flags);
            Transparent(published, alarm, convert) && SentFresh(before, published, alarm, convert)
  {
    var s := SnapshotOf(ch, alarm);
    ConvertedByType(ch.groups, s, convert);
    UpdatesAreFresh(ch.groups, s, convert, flags);
    hide Converted, Updates;
  }

  /** In the middle of an operation that began in `s0`: the channels in `stale` have
      changed and not published yet, all others are fresh. */
  ghost predicate FreshBut(s0: Server, s: Server, stale: set<nat>, convert: Converter) {
    && s0.Wf() && s.Wf() && s.owner == s0.owner
    && |s.channels| == |s0.channels| && |s.alarms| == |s0.alarms|
    && forall i | 0 <= i < |s.channels| ::
         if i in stale then s.channels[i].sent == s0.channels[i].sent
         else Transparent(s.channels[i], s.AlarmOf(i), convert)
              && SentFresh(s0.channels[i], s.channels[i], s.AlarmOf(i), convert)
  }

  ghost predicate NothingSent(s0: Server, s: Server) {
    && |s.channels| == |s0.channels|
    && forall i | 0 <= i < |s.channels| :: s.channels[i].sent == s0.channels[i].sent
  }

  function Sharing(s: Server, a: nat): set<nat> {
    set i | 0 <= i < |s.owner| && s.owner[i] == a
  }

  lemma AllFresh(s0: Server, s: Server, convert: Converter)
    requires FreshBut(s0, s, {}, convert)
    ensures AllTransparent(s, convert) && AllSentFresh(s0, s, convert)
  {
    hide Transparent, SentFresh;
  }

  lemma StartFresh(s: Server, convert: Converter)
    requires s.Wf() && AllTransparent(s, convert)
    ensures FreshBut(s, s, {}, convert) && NothingSent(s, s)
  {
    hide Transparent;
  }

  lemma ChangeChannel(s0: Server, s: Server, i: nat, ch: Chan, convert: Converter)
    requires FreshBut(s0, s, {}, convert) && NothingSent(s0, s)
    requires i < |s.channels| && ch.sent == s.channels[i].sent
    ensures FreshBut(s0, SetChannel(s, i, ch), {i}, convert) && NothingSent(s0, SetChannel(s, i, ch))
  {
    hide Transparent, SentFresh;
  }

  /** A change that neither the cache nor the queues can see. */
  lemma ChangeUnseen(s0: Server, s: Server, i: nat, ch: Chan, stale: set<nat>, convert: Converter)
    requires FreshBut(s0, s, stale, convert) && i < |s.channels|
    requires var was := s.channels[i];
             && ch.sent == was.sent && ch.content == was.content
             && forall alarm: Alarm :: SnapshotOf(ch, alarm) == SnapshotOf(was, alarm)
    ensures FreshBut(s0, SetChannel(s, i, ch), stale, convert)
    ensures NothingSent(s0, s) ==> NothingSent(s0, SetChannel(s, i, ch))
  {
    var was, alarm := s.channels[i], s.AlarmOf(i);
    assert SnapshotOf(ch, alarm) == SnapshotOf(was, alarm);
    assert Transparent(was, alarm, convert) ==> Transparent(ch, alarm, convert);
    assert SentFresh(s0.channels[i], was, alarm, convert) ==> SentFresh(s0.channels[i], ch, alarm, convert);
    hide Transparent, SentFresh, SnapshotOf;
  }

  lemma ChangeAlarm(s0: Server, s: Server, a: nat, w: AlarmWrite, stale: set<nat>, convert: Converter)
    requires FreshBut(s0, s, stale, convert) && NothingSent(s0, s) && a < |s.alarms|
    ensures FreshBut(s0, AlarmWritten(s, a, w), stale + Sharing(s, a), convert)
    ensures NothingSent(s0, AlarmWritten(s, a, w))
  {
    hide Transparent, SentFresh, Written;
  }

  lemma ThenPublishChannel(s0: Server, s: Server, i: nat, flags: set<Flag>, stale: set<nat>, convert: Converter)
    requires FreshBut(s0, s, stale, convert) && i < |s.channels|
    ensures FreshBut(s0, PublishChannel(s, i, convert, flags), stale - {i}, convert)
  {
    PublishedIsFresh(s0.channels[i], s.channels[i], s.AlarmOf(i), convert, flags);
    hide Transparent, SentFresh, Published;
  }

  lemma ThenPublishAlarm(
      s0: Server, s: Server, a: nat, flags: set<Flag>, except: set<nat>, stale: set<nat>, convert: Converter)
    requires FreshBut(s0, s, stale, convert)
    ensures FreshBut(s0, PublishAlarm(s, a, convert, flags, except), stale - (Sharing(s, a) - except), convert)
  {
    hide Transparent, SentFresh, Published;
    forall i | 0 <= i < |s.channels|
      ensures var ch := Published(s.channels[i], s.AlarmOf(i), convert, flags);
              Transparent(ch, s.AlarmOf(i), convert) && SentFresh(s0.channels[i], ch, s.AlarmOf(i), convert)
    {
      PublishedIsFresh(s0.channels[i], s.channels[i], s.AlarmOf(i), convert, flags);
    }
  }

  // ----- one operation

  lemma AlarmFresh(s0: Server, s: Server, a: nat, w: AlarmWrite, flags: set<Flag>, stale: set<nat>, convert: Converter)
    requires FreshBut(s0, s, stale, convert) && NothingSent(s0, s) && a < |s.alarms|
    ensures FreshBut(s0, StepAlarm(s, a, w, convert, flags), stale - Sharing(s, a), convert)
  {
    assert s.Wf();
    hide FreshBut, NothingSent, PublishAlarm, Announced, Written;
    ChangeAlarm(s0, s, a, w, stale, convert);
    ThenPublishAlarm(s0, AlarmWritten(s, a, w), a, Announced(s.alarms[a], w, flags), {}, stale + Sharing(s, a),
                     convert);
    assert Sharing(AlarmWritten(s, a, w), a) == Sharing(s, a);
    assert stale + Sharing(s, a) - (Sharing(s, a) - {}) == stale - Sharing(s, a);
  }

  lemma SubscribeFresh(s: Server, i: nat, queue: nat, dataType: nat, spec: nat, convert: Converter)
    requires s.Wf() && AllTransparent(s, convert) && i < |s.channels|
    ensures var ch := Subscribed(s.channels[i], s.AlarmOf(i), convert, queue, dataType, spec);
            && ch.sent == s.channels[i].sent
                          + [Update(queue, dataType, {spec}, Read(ch, s.AlarmOf(i), convert, dataType), {})]
            && FreshBut(s, SetChannel(s, i, ch), {}, convert)
  {
    StartFresh(s, convert);
    var was, alarm := s.channels[i], s.AlarmOf(i);
    var ch := Subscribed(was, alarm, convert, queue, dataType, spec);
    assert Transparent(was, alarm, convert);
    assert SnapshotOf(ch, alarm) == SnapshotOf(was, alarm);
    assert Transparent(ch, alarm, convert) && SentFresh(was, ch, alarm, convert);
    hide Transparent, SentFresh, Subscribed;
  }

  lemma MetadataFresh(s: Server, i: nat, md: Metadata, convert: Converter)
    requires s.Wf() && AllTransparent(s, convert) && i < |s.channels|
    ensures FreshBut(s, StepMetadata(s, i, md, convert), {}, convert)
  {
    StartFresh(s, convert);
    var a := s.owner[i];
    var ch := WithMetadata(s.channels[i], md);
    ChangeChannel(s, s, i, ch, convert);
    var s1 := SetChannel(s, i, ch);
    hide FreshBut, AllTransparent, NothingSent, WithMetadata, StepAlarm, PublishChannel;
    if md.ConcernsAlarm() {
      AlarmFresh(s, s1, a, OnlyStatus(md.status.Get(), md.severity.Get()), {}, {i}, convert);
      assert {i} - Sharing(s1, a) == {};
      var s2 := StepAlarm(s1, a, OnlyStatus(md.status.Get(), md.severity.Get()), convert, {});
      StepAlarmKeeps(s1, a, OnlyStatus(md.status.Get(), md.severity.Get()), convert, {});
      ThenPublishChannel(s, s2, i, {Property}, {}, convert);
      assert {} - {i} == {};
    } else {
      ThenPublishChannel(s, s1, i, {Property}, {i}, convert);
      assert {i} - {i} == {};
    }
  }

  lemma StepAlarmKeeps(s: Server, a: nat, w: AlarmWrite, convert: Converter, flags: set<Flag>)
    requires s.Wf() && a < |s.alarms|
    ensures var s1 := StepAlarm(s, a, w, convert, flags);
            s1.Wf() && |s1.channels| == |s.channels| && s1.owner == s.owner
  {
    hide Published, Written, Announced;
  }

  lemma TakeFresh(s0: Server, s: Server, i: nat, value: int, flags: set<Flag>, md: Metadata, convert: Converter)
    requires FreshBut(s0, s, {}, convert) && NothingSent(s0, s) && i < |s.channels|
    ensures FreshBut(s0, StepTake(s, i, value, flags, md, convert), {}, convert)
  {
    assert s.Wf();
    var a, w := s.owner[i], OnlyStatus(md.status.Get(), md.severity.Get());
    var ch := WithMetadata(s.channels[i].(value := value), md);
    var s1 := SetChannel(s, i, ch);
    ChangeChannel(s0, s, i, ch, convert);
    hide FreshBut, NothingSent, WithMetadata, Written, Published;
    var stale := {i};
    var s2 := s1;
    if md.ConcernsAlarm() {
      s2 := AlarmWritten(s1, a, w);
      ChangeAlarm(s0, s1, a, w, {i}, convert);
      stale := {i} + Sharing(s1, a);
    }
    ThenPublishChannel(s0, s2, i, flags, stale, convert);
    var s3 := PublishChannel(s2, i, convert, flags);
    if md.NamesAlarm() {
      ThenPublishAlarm(s0, s3, a, flags, {i}, stale - {i}, convert);
      assert Sharing(s3, a) == Sharing(s1, a);
      assert stale - {i} - (Sharing(s3, a) - {i}) == {};
    } else {
      assert stale - {i} == {};
    }
  }

  lemma WriteFresh(s: Server, i: nat, verdict: Verdict, flags: set<Flag>, md: Metadata, now: int, convert: Converter)
    requires s.Wf() && AllTransparent(s, convert) && i < |s.channels|
    ensures FreshBut(s, StepWrite(s, i, verdict, flags, md, now, convert), {}, convert)
  {
    StartFresh(s, convert);
    var ch := s.channels[i];
    ChangeUnseen(s, s, i, WithoutPending(ch), {}, convert);
    hide FreshBut, AllTransparent, NothingSent, StepAlarm, StepTake, WithCollected;
    match verdict {
      case Skip =>
      case Raise =>
        var w := OnlyStatus(Some(WRITE_STATUS), Some(MAJOR_ALARM));
        AlarmFresh(s, s, s.owner[i], w, {}, {}, convert);
        assert {} - Sharing(s, s.owner[i]) == {};
        StepAlarmKeeps(s, s.owner[i], w, convert, {});
        var s1 := StepAlarm(s, s.owner[i], w, convert, {});
        ChangeUnseen(s, s1, i, WithoutPending(s1.channels[i]), {}, convert);
      case Take(value) =>
        var all := WithCollected(md, CollectedStatus(ch, s.AlarmOf(i)), CollectedSeverity(ch, s.AlarmOf(i)), now);
        TakeFresh(s, SetChannel(s, i, WithoutPending(ch)), i, value, flags, all, convert);
    }
  }

  /** Whatever the operation, afterwards every cache is transparent again, and everything
      sent during the operation agrees with a fresh read at its end. */
  lemma StepFresh(s: Server, op: Operation, convert: Converter)
    requires s.Wf() && Applies(s, op) && AllTransparent(s, convert)
    ensures Step(s, op, convert).Wf() && AllTransparent(Step(s, op, convert), convert)
    ensures AllSentFresh(s, Step(s, op, convert), convert)
  {
    StartFresh(s, convert);
    match op {
      case Subscribe(i, queue, dataType, spec) => SubscribeFresh(s, i, queue, dataType, spec, convert);
      case Unsubscribe(i, queue, dataType, spec) =>
        ChangeUnseen(s, s, i, Unsubscribed(s.channels[i], queue, dataType, spec), {}, convert);
      case SetAside(i, status, severity) =>
        ChangeUnseen(s, s, i, WithPending(s.channels[i], status, severity), {}, convert);
      case WriteAlarm(a, w, flags) =>
        AlarmFresh(s, s, a, w, flags, {}, convert);
        assert {} - Sharing(s, a) == {};
      case WriteMetadata(i, md) => MetadataFresh(s, i, md, convert);
      case Write(i, verdict, flags, md, now) => WriteFresh(s, i, verdict, flags, md, now, convert);
    }
    assert FreshBut(s, Step(s, op, convert), {}, convert);
    hide Step, AllTransparent, AllSentFresh;
    AllFresh(s, Step(s, op, convert), convert);
  }

  // ----- any sequence of operations

  ghost predicate IsHistory(states: seq<Server>, ops: seq<Operation>, convert: Converter) {
    && |states| == |ops| + 1
    && (forall i | 0 <= i < |states| :: states[i].Wf())
    && (forall i | 0 <= i < |ops| ::
          Applies(states[i], ops[i]) && states[i + 1] == Step(states[i], ops[i], convert))
  }

  lemma {:induction false} HistoriesAreTransparent(states: seq<Server>, ops: seq<Operation>, convert: Converter, n: nat)
    requires IsHistory(states, ops, convert) && n < |states| && AllTransparent(states[0], convert)
    ensures AllTransparent(states[n], convert)
  {
    hide AllTransparent, Step;
    if n > 0 {
      HistoriesAreTransparent(states, ops, convert, n - 1);
      assert states[n] == Step(states[n - 1], ops[n - 1], convert);
      StepFresh(states[n - 1], ops[n - 1], convert);
    }
  }

  /** Publish and subscribe are transparent: after any completed operations on any number
      of channels sharing alarms, a new subscriber is first told exactly what a fresh read
      of the current value, metadata and alarm gives. */
  lemma NewSubscriberSeesFreshRead(states: seq<Server>, ops: seq<Operation>, convert: Converter, n: nat)
    requires IsHistory(states, ops, convert) && AllTransparent(states[0], convert)
    requires n < |ops| && ops[n].Subscribe?
    ensures var s, op := states[n], ops[n];
            && op.channel < |s.channels|
            && states[n + 1].channels[op.channel].sent ==
               s.channels[op.channel].sent
               + [Update(op.queue, op.dataType, {op.spec},
                         var ch := s.channels[op.channel];
                         convert(Snapshot(ch.config, ch.value, ch.fields, ch.timestamp, s.alarms[s.owner[op.channel]]),
                                 op.dataType),
                         {})]
  {
    HistoriesAreTransparent(states, ops, convert, n);
    var s, op := states[n], ops[n];
    assert Applies(s, op) && states[n + 1] == Step(s, op, convert);
    SubscribeFresh(s, op.channel, op.queue, op.dataType, op.spec, convert);
    var ch := Subscribed(s.channels[op.channel], s.AlarmOf(op.channel), convert, op.queue, op.dataType, op.spec);
    assert SnapshotOf(ch, s.AlarmOf(op.channel)) == SnapshotOf(s.channels[op.channel], s.AlarmOf(op.channel));
    hide AllTransparent, FreshBut, Subscribed, IsHistory;
  }

  // ----- what becomes of a severity that a handler sets aside

  lemma PublishedKeepsPending(ch: Chan, alarm: Alarm, convert: Converter, flags: set<Flag>)
    ensures var published := Published(ch, alarm, convert, flags);
            published.pendingStatus == ch.pendingStatus && published.pendingSeverity == ch.pendingSeverity
  {
    hide Converted, Updates;
  }

  lemma TakeOnAlarm(s: Server, i: nat, value: int, flags: set<Flag>, md: Metadata, convert: Converter)
    requires s.Wf() && i < |s.channels|
    ensures var after, w := StepTake(s, i, value, flags, md, convert), OnlyStatus(md.status.Get(), md.severity.Get());
            && after.Wf() && after.owner == s.owner && |after.channels| == |s.channels|
            && after.AlarmOf(i) == (if md.ConcernsAlarm() then Written(s.AlarmOf(i), w) else s.AlarmOf(i))
            && after.channels[i].pendingStatus == s.channels[i].pendingStatus
            && after.channels[i].pendingSeverity == s.channels[i].pendingSeverity
  {
    var a := s.owner[i];
    var s1 := SetChannel(s, i, WithMetadata(s.channels[i].(value := value), md));
    var s2 := if md.ConcernsAlarm() then AlarmWritten(s1, a, OnlyStatus(md.status.Get(), md.severity.Get())) else s1;
    PublishedKeepsPending(s2.channels[i], s2.AlarmOf(i), convert, flags);
    hide Published, Written;
  }

  /** Taking a new value writes the severity that was set aside to the alarm, unless the
      status that the alarm has already was set aside as well: then the severity is lost,
      which shows whenever it differs from the alarm's. */
  lemma SeveritySetAside(
      s: Server, i: nat, value: int, flags: set<Flag>, md: Metadata, now: int, convert: Converter)
    requires s.Wf() && i < |s.channels| && s.channels[i].pendingSeverity.Some? && md.severity.Get().None?
    ensures var ch, alarm := s.channels[i], s.AlarmOf(i);
            var after := StepWrite(s, i, Take(value), flags, md, now, convert);
            && after.Wf() && after.owner == s.owner && |after.channels| == |s.channels|
            && (after.AlarmOf(i).severity == ch.pendingSeverity.value <==>
                ch.pendingStatus != Some(alarm.status) || alarm.severity == ch.pendingSeverity.value)
            && (ch.pendingStatus == Some(alarm.status) ==> after.AlarmOf(i).severity == alarm.severity)
            && after.channels[i].pendingSeverity.None? && after.channels[i].pendingStatus.None?
  {
    var ch, alarm := s.channels[i], s.AlarmOf(i);
    var all := WithCollected(md, CollectedStatus(ch, alarm), CollectedSeverity(ch, alarm), now);
    TakeOnAlarm(SetChannel(s, i, WithoutPending(ch)), i, value, flags, all, convert);
    hide StepTake, Published;
  }
}
