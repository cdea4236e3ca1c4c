/** Alarms and channels as the mutable, mutually linked objects they are, proved to do to
    their fields what the functions of modules Alarms and Caches say. */
module ServerData {
  import opened Protocol
  import opened Alarms
  import opened Caches

  class ChannelAlarm {
    var data: Alarm
    var channels: set<ChannelData>

    constructor (data: Alarm)
      ensures this.data == data && channels == {}
    {
      this.data := data;
      channels := {};
    }

    ghost predicate Linked()
      reads this, channels
    {
      forall c <- channels :: c.alarm == this
    }

    /** Every channel but the excepted ones publishes, in some order. */
    method Publish(flags: set<Flag>, exceptFor: set<ChannelData>)
      requires Linked()
      modifies channels
      ensures forall c <- channels ::
                c.View() == if c in exceptFor then old(c.View()) else Published(old(c.View()), data, c.convert, flags)
    {
      var todo := channels;
      while todo != {}
        invariant todo <= channels
        invariant forall c <- channels ::
                    c.View() == if c in exceptFor || c in todo then old(c.View())
                                else Published(old(c.View()), data, c.convert, flags)
      {
        var c :| c in todo;
        if c !in exceptFor {
          c.Publish(flags);
        }
        todo := todo - {c};
      }
    }

    /** The arguments that are given, in the order of the source. */
    method Update(w: AlarmWrite, flags: set<Flag>) returns (announced: set<Flag>)
      modifies this`data
      ensures data == Written(old(data), w)
      ensures announced == Announced(old(data), w, flags)
    {
      announced := flags;
      if w.status.Some? {
        data := data.(status := w.status.value);
        announced := announced + {Value};
      }
      if w.severity.Some? {
        data := data.(severity := w.severity.value);
        if !data.mustAcknowledge || data.toAcknowledge < data.severity {
          data := data.(toAcknowledge := data.severity);
        }
        announced := announced + {AlarmChange};
      }
      if w.mustAcknowledge.Some? {
        data := data.(mustAcknowledge := w.mustAcknowledge.value);
        if !w.mustAcknowledge.value && data.toAcknowledge > data.severity {
          data := data.(toAcknowledge := data.severity);
        }
        announced := announced + {AlarmChange};
      }
      if w.acknowledge.Some? {
        if w.acknowledge.value >= data.severity {
          data := data.(toAcknowledge := 0);
          announced := announced + {AlarmChange};
        }
      }
      if w.text.Some? {
        data := data.(text := w.text.value);
        announced := announced + {AlarmChange};
      }
    }

    method Write(w: AlarmWrite, flags: set<Flag>, publish: bool)
      requires Linked()
      modifies this`data, channels
      ensures data == Written(old(data), w)
      ensures forall c <- channels ::
                c.View() == if publish then Published(old(c.View()), data, c.convert, Announced(old(data), w, flags))
                            else old(c.View())
    {
      hide Written, Announced, Published;
      var announced := Update(w, flags);
      if publish {
        Publish(announced, {});
      }
    }
  }

  class ChannelData {
    const alarm: ChannelAlarm
    const config: int
    const convert: Converter
    var value: int
    var fields: map<string, int>
    var timestamp: int
    var pendingStatus: Option<nat>
    var pendingSeverity: Option<Severity>
    var content: map<Key, Reading>
    var groups: seq<Group>
    var sent: seq<Update>

    ghost function View(): Chan
      reads this
    {
      Chan(config, value, fields, timestamp, pendingStatus, pendingSeverity, content, groups, sent)
    }

    /** A new channel joins the channels of its alarm. */
    constructor (alarm: ChannelAlarm, config: int, convert: Converter,
                 value: int, fields: map<string, int>, timestamp: int)
      requires alarm.Linked()
      modifies alarm`channels
      ensures this.alarm == alarm && this.convert == convert
      ensures alarm.channels == old(alarm.channels) + {this} && alarm.Linked()
      ensures View() == Chan(config, value, fields, timestamp, None, None, map[], [], [])
    {
      this.alarm, this.config, this.convert := alarm, config, convert;
      this.value, this.fields, this.timestamp := value, fields, timestamp;
      pendingStatus, pendingSeverity := None, None;
      content, groups, sent := map[], [], [];
      new;
      alarm.channels := alarm.channels + {this};
    }

    /** `_read` */
    function ReadAs(dataType: nat): (r: Reading)
      reads this, alarm
      ensures r == Caches.Read(View(), alarm.data, convert, dataType)
    {
      convert(Snapshot(config, value, fields, timestamp, alarm.data), dataType)
    }

    function Cached(key: Key): Option<Reading>
      reads this
    {
      if key in content then Some(content[key]) else None
    }

    /** Clear the cache, then convert for every group: a lookup by name finds nothing that
        was stored by type. */
    method Publish(flags: set<Flag>)
      modifies this`content, this`sent
      ensures View() == Published(old(View()), alarm.data, convert, flags)
    {
      content := map[];
      ghost var s := SnapshotOf(View(), alarm.data);
      for i := 0 to |groups|
        invariant content == Converted(groups[..i], s, convert)
        invariant sent == old(sent) + Updates(groups[..i], s, convert, flags)
      {
        var g := groups[i];
        assert groups[..i + 1][..i] == groups[..i];
        ConvertedByType(groups[..i], s, convert);
        if g.specs != {} {
          var reading;
          match Cached(ByName(g.dataType)) {
            case Some(cached) =>
              reading := cached;
            case None =>
              reading := ReadAs(g.dataType);
              content := content[ByType(g.dataType) := reading];
          }
          sent := sent + [Update(g.queue, g.dataType, g.specs, reading, flags)];
        }
      }
      assert groups[..|groups|] == groups;
    }

    method Subscribe(queue: nat, dataType: nat, spec: nat)
      modifies this`groups, this`content, this`sent
      ensures View() == Subscribed(old(View()), alarm.data, convert, queue, dataType, spec)
    {
      groups := AddSpec(groups, queue, dataType, spec);
      var reading;
      match Cached(ByName(dataType)) {
        case Some(cached) =>
          reading := cached;
        case None =>
          reading := ReadAs(dataType);
          content := content[ByName(dataType) := reading];
      }
      sent := sent + [Update(queue, dataType, {spec}, reading, {})];
    }

    method Unsubscribe(queue: nat, dataType: nat, spec: nat)
      modifies this`groups
      ensures View() == Unsubscribed(old(View()), queue, dataType, spec)
    {
      groups := seq(|groups|, i requires 0 <= i < |groups| reads this =>
        var g := groups[i];
        if g.queue == queue && g.dataType == dataType then g.(specs := g.specs - {spec}) else g);
    }

    /** The data of this object only; status and severity go to the shared alarm, and
        publication follows when asked for. */
    method WriteMetadata(md: Metadata, publish: bool)
      requires alarm.Linked() && this in alarm.channels
      modifies alarm`data, alarm.channels
      ensures alarm.data == if md.ConcernsAlarm()
                            then Written(old(alarm.data), OnlyStatus(md.status.Get(), md.severity.Get()))
                            else old(alarm.data)
      ensures !publish ==>
                && View() == WithMetadata(old(View()), md)
                && forall c <- alarm.channels | c != this :: c.View() == old(c.View())
      ensures publish ==>
                var flags := Announced(old(alarm.data), OnlyStatus(md.status.Get(), md.severity.Get()), {});
                var mine := WithMetadata(old(View()), md);
                && View() == Published(if md.ConcernsAlarm() then Published(mine, alarm.data, convert, flags) else mine,
                                       alarm.data, convert, {Property})
                && forall c <- alarm.channels | c != this ::
                     c.View() == if md.ConcernsAlarm() then Published(old(c.View()), alarm.data, c.convert, flags)
                                 else old(c.View())
    {
      fields := map k | k in fields :: if k in md.fields then md.fields[k] else fields[k];
      if md.timestamp.Get().Some? {
        timestamp := md.timestamp.Get().value;
      }
      if md.ConcernsAlarm() {
        alarm.Write(OnlyStatus(md.status.Get(), md.severity.Get()), {}, publish);
      }
      if publish {
        Publish({Property});
      }
    }

    /** Take what handlers have set aside for the alarm. */
    method CollectAlarm() returns (status: Option<nat>, severity: Option<Severity>)
      modifies this`pendingStatus, this`pendingSeverity
      ensures status == CollectedStatus(old(View()), alarm.data)
      ensures severity == CollectedSeverity(old(View()), alarm.data)
      ensures View() == WithoutPending(old(View()))
    {
      status := if pendingStatus.Some? && pendingStatus.value != alarm.data.status then pendingStatus else None;
      severity := if pendingSeverity.Some? && pendingStatus != Some(alarm.data.status) then pendingSeverity else None;
      pendingStatus, pendingSeverity := None, None;
    }

    /** `verdict` is what the handlers of this channel say. The alarm of a raised exception
        reaches every channel that shares it. */
    method Write(verdict: Verdict, flags: set<Flag>, md: Metadata, now: int)
      requires alarm.Linked() && this in alarm.channels
      modifies alarm`data, alarm.channels
      ensures verdict.Skip? ==>
                && alarm.data == old(alarm.data) && View() == WithoutPending(old(View()))
                && forall c <- alarm.channels | c != this :: c.View() == old(c.View())
      ensures verdict.Raise? ==>
                var w := OnlyStatus(Some(WRITE_STATUS), Some(MAJOR_ALARM));
                && alarm.data == Written(old(alarm.data), w)
                && View() == WithoutPending(
                     Published(old(View()), alarm.data, convert, Announced(old(alarm.data), w, {})))
                && forall c <- alarm.channels | c != this ::
                     c.View() == Published(old(c.View()), alarm.data, c.convert, Announced(old(alarm.data), w, {}))
      ensures verdict.Take? ==>
                var all := WithCollected(md, CollectedStatus(old(View()), old(alarm.data)),
                                         CollectedSeverity(old(View()), old(alarm.data)), now);
                && alarm.data == (if all.ConcernsAlarm()
                                  then Written(old(alarm.data), OnlyStatus(all.status.Get(), all.severity.Get()))
                                  else old(alarm.data))
                && View() == Published(WithMetadata(WithoutPending(old(View())).(value := verdict.value), all),
                                       alarm.data, convert, flags)
                && forall c <- alarm.channels | c != this ::
                     c.View() == if all.NamesAlarm() then Published(old(c.View()), alarm.data, c.convert, flags)
                                 else old(c.View())
    {
      hide Published, Written, Announced;
      if verdict.Raise? {
        alarm.Write(OnlyStatus(Some(WRITE_STATUS), Some(MAJOR_ALARM)), {}, true);
      }
      var status, severity := CollectAlarm();
      if !verdict.Take? {
        return;
      }
      var all := WithCollected(md, status, severity, now);
      value := verdict.value;
      WriteMetadata(all, false);
      Publish(flags);
      if all.NamesAlarm() {
        alarm.Publish(flags, {this});
      }
    }
  }
}
