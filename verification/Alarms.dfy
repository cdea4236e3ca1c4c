/** The alarm shared by several channels, and what is remembered of past severities. */
module Alarms {
  import opened Protocol

  type Severity = n: int | 0 <= n <= 3           // NO_ALARM, MINOR, MAJOR, INVALID

  const WRITE_STATUS: nat := 2
  const MAJOR_ALARM: Severity := 2

  datatype Flag = Value | Log | AlarmChange | Property

  datatype Alarm = Alarm(
    status: nat, severity: Severity, mustAcknowledge: bool, toAcknowledge: int, text: string)

  /** The keyword arguments of one write. */
  datatype AlarmWrite = AlarmWrite(
    status: Option<nat>, severity: Option<Severity>, mustAcknowledge: Option<bool>,
    acknowledge: Option<int>, text: Option<string>)

  function OnlyStatus(status: Option<nat>, severity: Option<Severity>): AlarmWrite {
    AlarmWrite(status, severity, None, None, None)
  }

  function WithSeverity(a: Alarm, severity: Severity): Alarm {
    var latched := if !a.mustAcknowledge || a.toAcknowledge < severity then severity else a.toAcknowledge;
    a.(severity := severity, toAcknowledge := latched)
  }

  function WithMustAcknowledge(a: Alarm, must: bool): Alarm {
    a.(mustAcknowledge := must,
       toAcknowledge := if !must && a.toAcknowledge > a.severity then a.severity else a.toAcknowledge)
  }

  function WithAcknowledgement(a: Alarm, severity: int): Alarm {
    if severity >= a.severity then a.(toAcknowledge := 0) else a
  }

  /** The alarm after one write: the arguments take effect in this order. */
  function Written(a: Alarm, w: AlarmWrite): Alarm {
    var a1 := if w.status.Some? then a.(status := w.status.value) else a;
    var a2 := if w.severity.Some? then WithSeverity(a1, w.severity.value) else a1;
    var a3 := if w.mustAcknowledge.Some? then WithMustAcknowledge(a2, w.mustAcknowledge.value) else a2;
    var a4 := if w.acknowledge.Some? then WithAcknowledgement(a3, w.acknowledge.value) else a3;
    if w.text.Some? then a4.(text := w.text.value) else a4
  }

  /** Which kinds of subscription the write is announced to. */
  function Announced(a: Alarm, w: AlarmWrite, flags: set<Flag>): set<Flag> {
    flags
    + (if w.status.Some? then {Value} else {})
    + (if w.severity.Some? || w.mustAcknowledge.Some? || w.text.Some? || Acknowledges(a, w) then {AlarmChange} else {})
  }

  // ----- the latch, over any history of writes

  /** The severity is acknowledged: the one given reaches the current one. */
  predicate Acknowledges(a: Alarm, w: AlarmWrite) {
    w.acknowledge.Some? && w.acknowledge.value >= (if w.severity.Some? then w.severity.value else a.severity)
  }

  /** Nothing is latched before this write, or the write itself clears the latch. */
  predicate Resets(a: Alarm, w: AlarmWrite) {
    !a.mustAcknowledge || w.mustAcknowledge == Some(false) || Acknowledges(a, w)
  }

  function AfterWrites(a: Alarm, ws: seq<AlarmWrite>): Alarm
    decreases |ws|
  {
    if ws == [] then a else Written(AfterWrites(a, ws[..|ws| - 1]), ws[|ws| - 1])
  }

  /** How many writes there were up to and including the last reset. */
  function LastReset(a: Alarm, ws: seq<AlarmWrite>): (n: nat)
    ensures n <= |ws|
    decreases |ws|
  {
    if ws == [] then 0
    else if Resets(AfterWrites(a, ws[..|ws| - 1]), ws[|ws| - 1]) then |ws|
    else LastReset(a, ws[..|ws| - 1])
  }

  /** The largest of `least` and every severity written. */
  function Highest(least: int, ws: seq<AlarmWrite>): int
    decreases |ws|
  {
    if ws == [] then least
    else
      var before := Highest(least, ws[..|ws| - 1]);
      var w := ws[|ws| - 1];
      if w.severity.Some? && w.severity.value > before then w.severity.value else before
  }

  /** `n` writes were made up to the last reset. */
  predicate ResetLastAt(a: Alarm, ws: seq<AlarmWrite>, n: nat)
    requires n <= |ws|
  {
    && (n > 0 ==> Resets(AfterWrites(a, ws[..n - 1]), ws[n - 1]))
    && forall i | n <= i < |ws| :: !Resets(AfterWrites(a, ws[..i]), ws[i])
  }

  /** The severity to acknowledge is the highest one written since the last reset, or what
      that reset left. The last reset really is one, and no write since then is. */
  lemma {:induction false} LatchHoldsHighest(a: Alarm, ws: seq<AlarmWrite>)
    ensures var n := LastReset(a, ws);
            && AfterWrites(a, ws).toAcknowledge == Highest(AfterWrites(a, ws[..n]).toAcknowledge, ws[n..])
            && ResetLastAt(a, ws, n)
    decreases |ws|
  {
    var n := LastReset(a, ws);
    if n == |ws| {
      assert ws[..n] == ws && ws[n..] == [];
      hide Written, Resets, AfterWrites, Highest;
      NothingSince(AfterWrites(a, ws).toAcknowledge);
    } else {
      hide Written, Resets, Highest, ResetLastAt, AfterWrites;
      var front, w := ws[..|ws| - 1], ws[|ws| - 1];
      assert !Resets(AfterWrites(a, front), w) && n == LastReset(a, front);
      assert ws == front + [w];
      LatchHoldsHighest(a, front);
      NoResetSince(a, front, w, n);
      LatchOneMore(a, front, w, n);
    }
  }

  lemma LatchOneMore(a: Alarm, front: seq<AlarmWrite>, w: AlarmWrite, n: nat)
    requires n <= |front| && !Resets(AfterWrites(a, front), w)
    requires AfterWrites(a, front).toAcknowledge == Highest(AfterWrites(a, front[..n]).toAcknowledge, front[n..])
    ensures var ws := front + [w];
            AfterWrites(a, ws).toAcknowledge == Highest(AfterWrites(a, ws[..n]).toAcknowledge, ws[n..])
  {
    hide Written, Resets, Highest, AfterWrites;
    var ws := front + [w];
    AfterOneMore(a, front, w);
    LatchStep(AfterWrites(a, front), w);
    HighestSnoc(AfterWrites(a, front[..n]).toAcknowledge, front[n..], w);
    assert front[..n] == ws[..n] && ws[n..] == front[n..] + [w];
  }

  lemma NothingSince(least: int)
    ensures Highest(least, []) == least
  {}

  lemma HighestSnoc(least: int, ws: seq<AlarmWrite>, w: AlarmWrite)
    ensures var before := Highest(least, ws);
            Highest(least, ws + [w]) ==
            if w.severity.Some? && w.severity.value > before then w.severity.value else before
  {
    assert (ws + [w])[..|ws|] == ws;
  }

  lemma NoResetSince(a: Alarm, ws: seq<AlarmWrite>, w: AlarmWrite, n: nat)
    requires n <= |ws| && ResetLastAt(a, ws, n) && !Resets(AfterWrites(a, ws), w)
    ensures ResetLastAt(a, ws + [w], n)
  {
    hide Resets, AfterWrites;
    var longer := ws + [w];
    assert forall i | 0 <= i <= |ws| :: longer[..i] == ws[..i];
    assert ws[..|ws|] == ws;
  }

  lemma LatchStep(a: Alarm, w: AlarmWrite)
    requires !Resets(a, w)
    ensures Written(a, w).toAcknowledge ==
            if w.severity.Some? && w.severity.value > a.toAcknowledge then w.severity.value else a.toAcknowledge
  {}

  /** What a reset leaves: nothing after an acknowledgement, otherwise at most the current
      severity; and without the latch it never exceeds the current severity. */
  lemma {:induction false} UnlatchedNeverExceeds(a: Alarm, ws: seq<AlarmWrite>)
    requires !a.mustAcknowledge ==> a.toAcknowledge <= a.severity
    ensures !AfterWrites(a, ws).mustAcknowledge ==> AfterWrites(a, ws).toAcknowledge <= AfterWrites(a, ws).severity
    ensures ws != [] && Acknowledges(AfterWrites(a, ws[..|ws| - 1]), ws[|ws| - 1]) ==>
              AfterWrites(a, ws).toAcknowledge == 0
    decreases |ws|
  {
    if ws != [] {
      UnlatchedNeverExceeds(a, ws[..|ws| - 1]);
    }
  }

  // ----- what is written is what is found

  /** The value of the last argument that was given, or what there was before. */
  function LastGiven<T>(initial: T, given: seq<Option<T>>): T
    decreases |given|
  {
    if given == [] then initial
    else if given[|given| - 1].Some? then given[|given| - 1].value
    else LastGiven(initial, given[..|given| - 1])
  }

  lemma LastGivenSnoc<T>(initial: T, given: seq<Option<T>>, last: Option<T>)
    ensures LastGiven(initial, given + [last]) == if last.Some? then last.value else LastGiven(initial, given)
  {
    assert (given + [last])[..|given|] == given;
  }

  function Statuses(ws: seq<AlarmWrite>): seq<Option<nat>> {
    seq(|ws|, i requires 0 <= i < |ws| => ws[i].status)
  }

  function Severities(ws: seq<AlarmWrite>): seq<Option<Severity>> {
    seq(|ws|, i requires 0 <= i < |ws| => ws[i].severity)
  }

  function Musts(ws: seq<AlarmWrite>): seq<Option<bool>> {
    seq(|ws|, i requires 0 <= i < |ws| => ws[i].mustAcknowledge)
  }

  function Texts(ws: seq<AlarmWrite>): seq<Option<string>> {
    seq(|ws|, i requires 0 <= i < |ws| => ws[i].text)
  }

  lemma GivenSnoc(ws: seq<AlarmWrite>)
    requires ws != []
    ensures var front, w := ws[..|ws| - 1], ws[|ws| - 1];
            && Statuses(ws) == Statuses(front) + [w.status] && Severities(ws) == Severities(front) + [w.severity]
            && Musts(ws) == Musts(front) + [w.mustAcknowledge] && Texts(ws) == Texts(front) + [w.text]
  {}

  lemma WrittenFields(a: Alarm, w: AlarmWrite)
    ensures var after := Written(a, w);
            && after.status == (if w.status.Some? then w.status.value else a.status)
            && after.severity == (if w.severity.Some? then w.severity.value else a.severity)
            && after.mustAcknowledge == (if w.mustAcknowledge.Some? then w.mustAcknowledge.value else a.mustAcknowledge)
            && after.text == (if w.text.Some? then w.text.value else a.text)
  {}

  /** After any writes, each field but the latch is the last one written. */
  lemma {:induction false} FieldsAreLastWritten(a: Alarm, ws: seq<AlarmWrite>)
    ensures var after := AfterWrites(a, ws);
            && after.status == LastGiven(a.status, Statuses(ws))
            && after.severity == LastGiven(a.severity, Severities(ws))
            && after.mustAcknowledge == LastGiven(a.mustAcknowledge, Musts(ws))
            && after.text == LastGiven(a.text, Texts(ws))
    decreases |ws|
  {
    if ws != [] {
      var front, w := ws[..|ws| - 1], ws[|ws| - 1];
      FieldsAreLastWritten(a, front);
      WrittenFields(AfterWrites(a, front), w);
      GivenSnoc(ws);
      hide LastGiven, Written, Statuses, Severities, Musts, Texts;
      LastGivenSnoc(a.status, Statuses(front), w.status);
      LastGivenSnoc(a.severity, Severities(front), w.severity);
      LastGivenSnoc(a.mustAcknowledge, Musts(front), w.mustAcknowledge);
      LastGivenSnoc(a.text, Texts(front), w.text);
    }
  }

  /** What each argument by itself does to the latch. */
  lemma LatchByArgument(a: Alarm, status: nat, severity: Severity, acknowledged: int, text: string)
    ensures Written(a, AlarmWrite(Some(status), None, None, None, None)).toAcknowledge == a.toAcknowledge
    ensures Written(a, AlarmWrite(None, Some(severity), None, None, None)).toAcknowledge ==
            if a.mustAcknowledge && a.toAcknowledge >= severity then a.toAcknowledge else severity
    ensures Written(a, AlarmWrite(None, None, Some(true), None, None)).toAcknowledge == a.toAcknowledge
    ensures Written(a, AlarmWrite(None, None, Some(false), None, None)).toAcknowledge ==
            if a.toAcknowledge > a.severity then a.severity else a.toAcknowledge
    ensures Written(a, AlarmWrite(None, None, None, Some(acknowledged), None)).toAcknowledge ==
            if acknowledged >= a.severity then 0 else a.toAcknowledge
    ensures Written(a, AlarmWrite(None, None, None, None, Some(text))).toAcknowledge == a.toAcknowledge
  {}

  /** The arguments of one write, one at a time. */
  function OneByOne(w: AlarmWrite): seq<AlarmWrite> {
    [AlarmWrite(w.status, None, None, None, None), AlarmWrite(None, w.severity, None, None, None),
     AlarmWrite(None, None, w.mustAcknowledge, None, None), AlarmWrite(None, None, None, w.acknowledge, None),
     AlarmWrite(None, None, None, None, w.text)]
  }

  /** Several arguments at once come to the same as the same arguments one after the other. */
  lemma AtOnceIsOneByOne(a: Alarm, w: AlarmWrite)
    ensures AfterWrites(a, OneByOne(w)) == Written(a, w)
  {
    var ws := OneByOne(w);
    AfterOneMore(a, ws[..4], ws[4]);
    AfterOneMore(a, ws[..3], ws[3]);
    AfterOneMore(a, ws[..2], ws[2]);
    AfterOneMore(a, ws[..1], ws[1]);
    AfterOneMore(a, [], ws[0]);
    assert ws == ws[..4] + [ws[4]] && ws[..4] == ws[..3] + [ws[3]] && ws[..3] == ws[..2] + [ws[2]];
    assert ws[..2] == ws[..1] + [ws[1]] && ws[..1] == [] + [ws[0]];
    hide AfterWrites;
  }

  lemma AfterOneMore(a: Alarm, ws: seq<AlarmWrite>, w: AlarmWrite)
    ensures AfterWrites(a, ws + [w]) == Written(AfterWrites(a, ws), w)
    ensures AfterWrites(a, []) == a
  {
    assert (ws + [w])[..|ws|] == ws;
  }

  /** Which kinds of subscription a write adds to those it is given: values for a status,
      alarms for everything else, but for an acknowledgement only if it takes effect. The
      severity it is compared with is the new one. */
  lemma FlagsByArgument(a: Alarm, w: AlarmWrite, flags: set<Flag>)
    ensures var announced := Announced(a, w, flags);
            && (Flag.Value in announced <==> Flag.Value in flags || w.status.Some?)
            && (Log in announced <==> Log in flags)
            && (Property in announced <==> Property in flags)
            && (AlarmChange in announced <==>
                || AlarmChange in flags || w.severity.Some? || w.mustAcknowledge.Some? || w.text.Some?
                || (w.acknowledge.Some? && w.acknowledge.value >= Written(a, w).severity))
  {}
}
