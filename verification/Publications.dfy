/** Who is told what: each publication sends one update to every group of subscriptions,
    and to nobody else. */
module Publications {
  import opened Protocol
  import opened Alarms
  import opened Caches

  // ----- one publication

  /** How many of the groups before `n` have subscriptions. */
  function BusyBefore(groups: seq<Group>, n: nat): nat
    requires n <= |groups|
  {
    |set k | 0 <= k < n && groups[k].specs != {}|
  }

  function Busy(groups: seq<Group>): nat {
    BusyBefore(groups, |groups|)
  }

  /** `us` holds one update for every group of `ch` that has subscriptions, in the order of
      the groups, and nothing else. */
  ghost predicate EachGroupOnce(ch: Chan, us: seq<Update>, alarm: Alarm, convert: Converter, flags: set<Flag>) {
    && |us| == Busy(ch.groups)
    && forall k | 0 <= k < |ch.groups| && ch.groups[k].specs != {} ::
         && BusyBefore(ch.groups, k) < |us|
         && us[BusyBefore(ch.groups, k)] ==
            Update(ch.groups[k].queue, ch.groups[k].dataType, ch.groups[k].specs,
                   convert(Snapshot(ch.config, ch.value, ch.fields, ch.timestamp, alarm), ch.groups[k].dataType),
                   flags)
  }

  /** Nothing but the cache and the queues may differ. */
  predicate SameData(was: Chan, now: Chan) {
    now == was.(content := now.content, sent := now.sent)
  }

  /** Since `was`, the channel has published once. */
  ghost predicate ToldOnce(was: Chan, now: Chan, alarm: Alarm, convert: Converter, flags: set<Flag>) {
    && now.groups == was.groups && was.sent <= now.sent
    && EachGroupOnce(now, now.sent[|was.sent|..], alarm, convert, flags)
  }

  /** Since `was`, the channel has published twice. */
  ghost predicate ToldTwice(
      was: Chan, now: Chan, alarm: Alarm, convert: Converter, first: set<Flag>, second: set<Flag>)
  {
    && now.groups == was.groups && was.sent <= now.sent
    && var us, n := now.sent[|was.sent|..], Busy(was.groups);
       && |us| == 2 * n
       && EachGroupOnce(now, us[..n], alarm, convert, first) && EachGroupOnce(now, us[n..], alarm, convert, second)
  }

  lemma BusySnoc(groups: seq<Group>, n: nat)
    requires n < |groups|
    ensures BusyBefore(groups, n + 1) == BusyBefore(groups, n) + (if groups[n].specs == {} then 0 else 1)
  {
    var before := set k | 0 <= k < n && groups[k].specs != {};
    assert (set k | 0 <= k < n + 1 && groups[k].specs != {}) == before + (if groups[n].specs == {} then {} else {n});
  }

  function UpdateFor(g: Group, s: Snapshot, convert: Converter, flags: set<Flag>): Update {
    Update(g.queue, g.dataType, g.specs, convert(s, g.dataType), flags)
  }

  lemma UpdatesSnoc(groups: seq<Group>, n: nat, s: Snapshot, convert: Converter, flags: set<Flag>)
    requires n < |groups|
    ensures Updates(groups[..n + 1], s, convert, flags) ==
            Updates(groups[..n], s, convert, flags)
            + (if groups[n].specs == {} then [] else [UpdateFor(groups[n], s, convert, flags)])
  {
    assert groups[..n + 1][..n] == groups[..n];
  }

  lemma {:induction false} UpdatesPerGroup(
      groups: seq<Group>, n: nat, s: Snapshot, convert: Converter, flags: set<Flag>)
    requires n <= |groups|
    ensures var us := Updates(groups[..n], s, convert, flags);
            && |us| == BusyBefore(groups, n)
            && forall k | 0 <= k < n && groups[k].specs != {} ::
                 && BusyBefore(groups, k) < |us|
                 && us[BusyBefore(groups, k)] == UpdateFor(groups[k], s, convert, flags)
  {
    hide BusyBefore, UpdateFor;
    if n > 0 {
      UpdatesPerGroup(groups, n - 1, s, convert, flags);
      BusySnoc(groups, n - 1);
      UpdatesSnoc(groups, n - 1, s, convert, flags);
      hide Updates;
    } else {
      NoneBusy(groups);
    }
  }

  lemma NoneBusy(groups: seq<Group>)
    ensures BusyBefore(groups, 0) == 0
  {}

  lemma PublishedTells(ch: Chan, alarm: Alarm, convert: Converter, flags: set<Flag>)
    ensures var now := Published(ch, alarm, convert, flags);
            SameData(ch, now) && ToldOnce(ch, now, alarm, convert, flags)
  {
    var s := SnapshotOf(ch, alarm);
    UpdatesPerGroup(ch.groups, |ch.groups|, s, convert, flags);
    assert ch.groups[..|ch.groups|] == ch.groups;
    var now := Published(ch, alarm, convert, flags);
    assert now.sent[|ch.sent|..] == Updates(ch.groups, s, convert, flags);
    hide Updates, Converted, BusyBefore;
  }

  /** Two publications in a row, the second one after a change that leaves the readings
      alone. */
  lemma PublishedTwice(ch: Chan, alarm: Alarm, convert: Converter, first: set<Flag>, second: set<Flag>)
    ensures var now := Published(Published(ch, alarm, convert, first), alarm, convert, second);
            SameData(ch, now) && ToldTwice(ch, now, alarm, convert, first, second)
  {
    var mid := Published(ch, alarm, convert, first);
    var now := Published(mid, alarm, convert, second);
    PublishedTells(ch, alarm, convert, first);
    PublishedTells(mid, alarm, convert, second);
    hide Published, BusyBefore;
    var us, n := now.sent[|ch.sent|..], Busy(ch.groups);
    assert us[..n] == mid.sent[|ch.sent|..] && us[n..] == now.sent[|mid.sent|..];
    assert SnapshotOf(mid, alarm) == SnapshotOf(ch, alarm) == SnapshotOf(now, alarm);
    hide SnapshotOf;
  }

  // ----- each operation

  /** Channels of other alarms hear nothing of it; those of alarm `a`, but for the excepted
      ones, publish once. */
  lemma AlarmTells(s: Server, a: nat, convert: Converter, flags: set<Flag>, except: set<nat>)
    requires s.Wf()
    ensures var s1 := PublishAlarm(s, a, convert, flags, except);
            && s1.Wf() && s1.alarms == s.alarms && s1.owner == s.owner && |s1.channels| == |s.channels|
            && forall i | 0 <= i < |s.channels| ::
                 if s.owner[i] == a && i !in except then
                   && SameData(s.channels[i], s1.channels[i])
                   && ToldOnce(s.channels[i], s1.channels[i], s.AlarmOf(i), convert, flags)
                 else s1.channels[i] == s.channels[i]
  {
    forall i | 0 <= i < |s.channels|
      ensures var now := Published(s.channels[i], s.AlarmOf(i), convert, flags);
              SameData(s.channels[i], now) && ToldOnce(s.channels[i], now, s.AlarmOf(i), convert, flags)
    {
      PublishedTells(s.channels[i], s.AlarmOf(i), convert, flags);
    }
    hide Published, SameData, ToldOnce;
  }

  /** A write to an alarm: every channel that shares it publishes once, with the flags that
      go with the arguments. No other channel and no other alarm is touched. */
  lemma WriteAlarmTells(s: Server, a: nat, w: AlarmWrite, flags: set<Flag>, convert: Converter)
    requires s.Wf() && a < |s.alarms|
    ensures var s1 := Step(s, WriteAlarm(a, w, flags), convert);
            && s1.Wf() && s1.owner == s.owner && |s1.channels| == |s.channels|
            && s1.alarms == s.alarms[a := Written(s.alarms[a], w)]
            && forall i | 0 <= i < |s.channels| ::
                 if s.owner[i] == a then
                   && SameData(s.channels[i], s1.channels[i])
                   && ToldOnce(s.channels[i], s1.channels[i], s1.alarms[a], convert, Announced(s.alarms[a], w, flags))
                 else s1.channels[i] == s.channels[i]
  {
    hide Written, Announced, SameData, ToldOnce, PublishAlarm;
    AlarmTells(AlarmWritten(s, a, w), a, convert, Announced(s.alarms[a], w, flags), {});
  }

  /** The data of a channel after a write: the new value, the given time, and those given
      fields that the channel has. Nothing stays set aside. */
  ghost predicate DataWritten(was: Chan, now: Chan, value: int, md: Metadata, time: int) {
    && now.config == was.config && now.groups == was.groups && now.value == value
    && now.timestamp == time
    && now.fields.Keys == was.fields.Keys
    && (forall k <- was.fields :: now.fields[k] == if k in md.fields then md.fields[k] else was.fields[k])
  }

  /** The flags that a status and a severity add. */
  function StatusFlags(status: Option<nat>, severity: Option<Severity>): set<Flag> {
    (if status.Some? then {Flag.Value} else {}) + (if severity.Some? then {AlarmChange} else {})
  }

  lemma MetadataWritten(was: Chan, md: Metadata)
    ensures var time := if md.timestamp.Get().Some? then md.timestamp.Get().value else was.timestamp;
            DataWritten(was, WithMetadata(was, md), was.value, md, time)
    ensures WithMetadata(was, md).groups == was.groups && WithMetadata(was, md).sent == was.sent
  {}

  /** The state after metadata was written, one publication after the other. */
  lemma MetadataState(s: Server, i: nat, md: Metadata, convert: Converter)
    requires s.Wf() && i < |s.channels|
    ensures var a, w := s.owner[i], OnlyStatus(md.status.Get(), md.severity.Get());
            var ch, s1 := WithMetadata(s.channels[i], md), StepMetadata(s, i, md, convert);
            var alarm := if md.ConcernsAlarm() then Written(s.alarms[a], w) else s.alarms[a];
            var flags := Announced(s.alarms[a], w, {});
            && s1.Wf() && s1.owner == s.owner && |s1.channels| == |s.channels| && s1.alarms == s.alarms[a := alarm]
            && s1.channels[i] == Published(if md.ConcernsAlarm() then Published(ch, alarm, convert, flags) else ch,
                                           alarm, convert, {Property})
            && forall j | 0 <= j < |s.channels| && j != i ::
                 s1.channels[j] == if s.owner[j] == a && md.ConcernsAlarm()
                                   then Published(s.channels[j], alarm, convert, flags) else s.channels[j]
  {
    hide Announced, Written, Published, WithMetadata;
  }

  lemma FlagsOfStatus(alarm: Alarm, status: Option<nat>, severity: Option<Severity>)
    ensures Announced(alarm, OnlyStatus(status, severity), {}) == StatusFlags(status, severity)
  {}

  /** Metadata by itself: the channel publishes as a change of properties; if it concerns
      the alarm, every channel of that alarm publishes the change of the alarm before. */
  lemma MetadataTells(s: Server, i: nat, md: Metadata, convert: Converter)
    requires s.Wf() && i < |s.channels|
    ensures var s1, was := Step(s, WriteMetadata(i, md), convert), s.channels[i];
            var a, flags := s.owner[i], StatusFlags(md.status.Get(), md.severity.Get());
            && s1.Wf() && s1.owner == s.owner && |s1.channels| == |s.channels|
            && s1.alarms == s.alarms[a := if md.ConcernsAlarm()
                                          then Written(s.alarms[a], OnlyStatus(md.status.Get(), md.severity.Get()))
                                          else s.alarms[a]]
            && DataWritten(was, s1.channels[i], was.value, md,
                           if md.timestamp.Get().Some? then md.timestamp.Get().value else was.timestamp)
            && (if md.ConcernsAlarm()
                then ToldTwice(was, s1.channels[i], s1.alarms[a], convert, flags, {Property})
                else ToldOnce(was, s1.channels[i], s1.alarms[a], convert, {Property}))
            && forall j | 0 <= j < |s.channels| && j != i ::
                 if s.owner[j] == a && md.ConcernsAlarm() then
                   && SameData(s.channels[j], s1.channels[j])
                   && ToldOnce(s.channels[j], s1.channels[j], s1.alarms[a], convert, flags)
                 else s1.channels[j] == s.channels[j]
  {
    var a, w := s.owner[i], OnlyStatus(md.status.Get(), md.severity.Get());
    var was, ch := s.channels[i], WithMetadata(s.channels[i], md);
    var alarm := if md.ConcernsAlarm() then Written(s.alarms[a], w) else s.alarms[a];
    var flags := StatusFlags(md.status.Get(), md.severity.Get());
    assert Step(s, WriteMetadata(i, md), convert) == StepMetadata(s, i, md, convert);
    hide Step, StepMetadata, Announced, Written, StatusFlags, Published, WithMetadata, BusyBefore;
    MetadataState(s, i, md, convert);
    FlagsOfStatus(s.alarms[a], md.status.Get(), md.severity.Get());
    MetadataWritten(was, md);
    hide EachGroupOnce;
    if md.ConcernsAlarm() {
      PublishedTwice(ch, alarm, convert, flags, {Property});
      hide DataWritten;
      forall j | 0 <= j < |s.channels|
        ensures var now := Published(s.channels[j], alarm, convert, flags);
                SameData(s.channels[j], now) && ToldOnce(s.channels[j], now, alarm, convert, flags)
      {
        PublishedTells(s.channels[j], alarm, convert, flags);
      }
    } else {
      PublishedTells(ch, alarm, convert, {Property});
    }
  }

  /** What a handler has set aside goes before what the caller gives, unless it is the
      status that the alarm has already. */
  function StatusFor(ch: Chan, alarm: Alarm, md: Metadata): Option<nat> {
    if ch.pendingStatus.Some? && ch.pendingStatus != Some(alarm.status) then ch.pendingStatus else md.status.Get()
  }

  function SeverityFor(ch: Chan, alarm: Alarm, md: Metadata): Option<Severity> {
    if ch.pendingSeverity.Some? && ch.pendingStatus != Some(alarm.status) then ch.pendingSeverity
    else md.severity.Get()
  }

  /** Named by the caller, or set aside, even if only with the value None. */
  predicate AlarmNamed(ch: Chan, alarm: Alarm, md: Metadata) {
    || md.status.Named? || md.severity.Named?
    || (ch.pendingStatus != Some(alarm.status) && (ch.pendingStatus.Some? || ch.pendingSeverity.Some?))
  }

  /** A write without a timestamp takes the time of the write; None keeps the old one. */
  function TimeFor(was: Chan, md: Metadata, now: int): int {
    match md.timestamp
    case Missing => now
    case Named(None) => was.timestamp
    case Named(Some(time)) => time
  }

  lemma TakenWritten(was: Chan, alarm: Alarm, value: int, md: Metadata, now: int)
    ensures var all := WithCollected(md, CollectedStatus(was, alarm), CollectedSeverity(was, alarm), now);
            var ch := WithMetadata(WithoutPending(was).(value := value), all);
            && DataWritten(was, ch, value, md, TimeFor(was, md, now))
            && ch.sent == was.sent && ch.pendingStatus.None? && ch.pendingSeverity.None?
            && all.status.Get() == StatusFor(was, alarm, md) && all.severity.Get() == SeverityFor(was, alarm, md)
            && (all.NamesAlarm() <==> AlarmNamed(was, alarm, md))
  {}

  /** The state after a value was taken. */
  lemma TakenState(s: Server, i: nat, value: int, flags: set<Flag>, md: Metadata, now: int, convert: Converter)
    requires s.Wf() && i < |s.channels|
    ensures var a, was := s.owner[i], s.channels[i];
            var all := WithCollected(md, CollectedStatus(was, s.alarms[a]), CollectedSeverity(was, s.alarms[a]), now);
            var ch := WithMetadata(WithoutPending(was).(value := value), all);
            var alarm := if all.ConcernsAlarm()
                         then Written(s.alarms[a], OnlyStatus(all.status.Get(), all.severity.Get())) else s.alarms[a];
            var s1 := StepWrite(s, i, Take(value), flags, md, now, convert);
            && s1.Wf() && s1.owner == s.owner && |s1.channels| == |s.channels| && s1.alarms == s.alarms[a := alarm]
            && s1.channels[i] == Published(ch, alarm, convert, flags)
            && forall j | 0 <= j < |s.channels| && j != i ::
                 s1.channels[j] == if s.owner[j] == a && all.NamesAlarm()
                                   then Published(s.channels[j], alarm, convert, flags) else s.channels[j]
  {
    hide Written, Published, WithMetadata, WithCollected, CollectedStatus, CollectedSeverity;
  }

  /** A new value: the channel publishes once, with the new data; if the alarm is named, the
      other channels of that alarm publish once as well. Nobody else does. */
  lemma ValueTells(s: Server, i: nat, value: int, flags: set<Flag>, md: Metadata, now: int, convert: Converter)
    requires s.Wf() && i < |s.channels|
    ensures var s1, was, a := Step(s, Write(i, Take(value), flags, md, now), convert), s.channels[i], s.owner[i];
            var status, severity := StatusFor(was, s.alarms[a], md), SeverityFor(was, s.alarms[a], md);
            && s1.Wf() && s1.owner == s.owner && |s1.channels| == |s.channels|
            && s1.alarms == s.alarms[a := if status.Some? || severity.Some?
                                          then Written(s.alarms[a], OnlyStatus(status, severity)) else s.alarms[a]]
            && DataWritten(was, s1.channels[i], value, md, TimeFor(was, md, now))
            && s1.channels[i].pendingStatus.None? && s1.channels[i].pendingSeverity.None?
            && ToldOnce(was, s1.channels[i], s1.alarms[a], convert, flags)
            && forall j | 0 <= j < |s.channels| && j != i ::
                 if s.owner[j] == a && AlarmNamed(was, s.alarms[a], md) then
                   && SameData(s.channels[j], s1.channels[j])
                   && ToldOnce(s.channels[j], s1.channels[j], s1.alarms[a], convert, flags)
                 else s1.channels[j] == s.channels[j]
  {
    var a, was := s.owner[i], s.channels[i];
    var all := WithCollected(md, CollectedStatus(was, s.alarms[a]), CollectedSeverity(was, s.alarms[a]), now);
    var ch := WithMetadata(WithoutPending(was).(value := value), all);
    var alarm := if all.ConcernsAlarm()
                 then Written(s.alarms[a], OnlyStatus(all.status.Get(), all.severity.Get())) else s.alarms[a];
    assert Step(s, Write(i, Take(value), flags, md, now), convert)
        == StepWrite(s, i, Take(value), flags, md, now, convert);
    hide Step, StepWrite, Written, Published, WithMetadata, WithCollected, WithoutPending, CollectedStatus,
         CollectedSeverity, StatusFor, SeverityFor, AlarmNamed, TimeFor, EachGroupOnce;
    TakenState(s, i, value, flags, md, now, convert);
    TakenWritten(was, s.alarms[a], value, md, now);
    PublishedTells(ch, alarm, convert, flags);
    forall j | 0 <= j < |s.channels|
      ensures var told := Published(s.channels[j], alarm, convert, flags);
              SameData(s.channels[j], told) && ToldOnce(s.channels[j], told, alarm, convert, flags)
    {
      PublishedTells(s.channels[j], alarm, convert, flags);
    }
  }

  /** A value that a handler refuses leaves the data as they are and puts the alarm into
      status WRITE, severity MAJOR; every channel of the alarm publishes that. A skipped one
      does nothing. In either case nothing stays set aside. */
  lemma RefusalTells(s: Server, i: nat, flags: set<Flag>, md: Metadata, now: int, convert: Converter)
    requires s.Wf() && i < |s.channels|
    ensures var s1, a := Step(s, Write(i, Raise, flags, md, now), convert), s.owner[i];
            && s1.Wf() && s1.owner == s.owner && |s1.channels| == |s.channels| && |s1.alarms| == |s.alarms|
            && s1.alarms[a].status == 2 && s1.alarms[a].severity == 2
            && (forall b | 0 <= b < |s.alarms| && b != a :: s1.alarms[b] == s.alarms[b])
            && s1.channels[i].pendingStatus.None? && s1.channels[i].pendingSeverity.None?
            && forall j | 0 <= j < |s.channels| ::
                 if s.owner[j] == a then
                   && SameData(if j == i then WithoutPending(s.channels[j]) else s.channels[j], s1.channels[j])
                   && ToldOnce(s.channels[j], s1.channels[j], s1.alarms[a], convert, {Flag.Value, AlarmChange})
                 else s1.channels[j] == s.channels[j]
    ensures Step(s, Write(i, Skip, flags, md, now), convert) == SetChannel(s, i, WithoutPending(s.channels[i]))
  {
    var a, w, flagged := s.owner[i], OnlyStatus(Some(WRITE_STATUS), Some(MAJOR_ALARM)), {Flag.Value, AlarmChange};
    assert Announced(s.alarms[a], w, {}) == flagged;
    var s0, ch := Step(s, WriteAlarm(a, w, {}), convert), s.channels[i];
    assert Step(s, Write(i, Raise, flags, md, now), convert) == SetChannel(s0, i, WithoutPending(s0.channels[i]));
    hide Announced, Written, Step, EachGroupOnce;
    WriteAlarmTells(s, a, w, {}, convert);
    WrittenFields(s.alarms[a], w);
    PendingOutside(ch, s0.channels[i], s0.alarms[a], convert, flagged);
    hide ToldOnce, SameData;
  }

  lemma PendingOutside(was: Chan, now: Chan, alarm: Alarm, convert: Converter, flags: set<Flag>)
    requires SameData(was, now) && ToldOnce(was, now, alarm, convert, flags)
    ensures SameData(WithoutPending(was), WithoutPending(now))
    ensures ToldOnce(was, WithoutPending(now), alarm, convert, flags)
  {
    OutsideReading(now, now.sent[|was.sent|..], alarm, convert, flags);
    hide EachGroupOnce;
  }

  /** What a handler sets aside is told to nobody, and is what the next value that is taken
      writes to the alarm, unless the alarm has that status already. */
  lemma SetAsideIsTaken(
      s: Server, i: nat, status: nat, severity: Severity, value: int, flags: set<Flag>, now: int, convert: Converter)
    requires s.Wf() && i < |s.channels| && status != s.AlarmOf(i).status
    ensures var s1 := Step(s, SetAside(i, Some(status), Some(severity)), convert);
            && s1.Wf() && s1.alarms == s.alarms && s1.owner == s.owner && |s1.channels| == |s.channels|
            && (forall j | 0 <= j < |s.channels| :: s1.channels[j].sent == s.channels[j].sent)
            && var md := Metadata(map[], Missing, Missing, Missing);
               var s2 := Step(s1, Write(i, Take(value), flags, md, now), convert);
               && s2.Wf() && i < |s2.channels| && s2.owner == s.owner
               && s2.AlarmOf(i).status == status && s2.AlarmOf(i).severity == severity
  {
    var s1, a := Step(s, SetAside(i, Some(status), Some(severity)), convert), s.owner[i];
    var md := Metadata(map[], Missing, Missing, Missing);
    assert StatusFor(s1.channels[i], s1.alarms[a], md) == Some(status);
    assert SeverityFor(s1.channels[i], s1.alarms[a], md) == Some(severity);
    ValueTells(s1, i, value, flags, md, now, convert);
    WrittenFields(s1.alarms[a], OnlyStatus(Some(status), Some(severity)));
    hide StepWrite, ToldOnce, SameData, DataWritten, Written;
  }

  lemma OutsideReading(ch: Chan, us: seq<Update>, alarm: Alarm, convert: Converter, flags: set<Flag>)
    ensures EachGroupOnce(WithoutPending(ch), us, alarm, convert, flags)
            <==> EachGroupOnce(ch, us, alarm, convert, flags)
  {
    assert SnapshotOf(WithoutPending(ch), alarm) == SnapshotOf(ch, alarm);
  }
}
