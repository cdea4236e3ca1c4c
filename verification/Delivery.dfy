/** From commands on one circuit, through bytes, to commands on the other. */
module Delivery {
  import opened Protocol
  import opened ByteStrings
  import opened Headers
  import opened Messages
  import opened Stream
  import opened RoundTrips
  import Circuit
  import LockStep
  import Expected
  import Runs

  /** What a circuit reads from a message. `parses` decides whether the record filter in a
      (padded) channel name is well formed. */
  function AsCommand(m: Message, parses: Bytes -> bool): Command {
    Command(m.kind, m.header.payloadSize, m.header.dataType, m.header.dataCount,
            m.header.parameter1, m.header.parameter2,
            m.kind.CreateChanRequest? ==> parses(Joined(m.buffers)))
  }

  function AsCommands(ms: seq<Message>, parses: Bytes -> bool): seq<Command> {
    seq(|ms|, i requires 0 <= i < |ms| => AsCommand(ms[i], parses))
  }

  function OnWireAll(cmds: seq<Command>): seq<Command> {
    seq(|cmds|, i requires 0 <= i < |cmds| => Runs.OnWire(cmds[i]))
  }

  /** A copy of a message that came over the wire means what the queues of the two-party
      model carry. */
  lemma SameMeaning(got: Message, m: Message, role: Role, parses: Bytes -> bool)
    requires Same(got, m) && Sendable(m, role)
    ensures AsCommand(got, parses) == Runs.OnWire(AsCommand(m, parses))
  {
    hide MessageBytes, Survives, Joined;
  }

  /** However the bytes of a list of commands are cut on their way, the receiver's circuit
      gets to see exactly these commands, in order, as the wire carries them. */
  lemma BytesCarryCommands(ms: seq<Message>, role: Role, chunks: seq<Bytes>, parses: Bytes -> bool)
    requires AllSendable(ms, role) && Concat(chunks) == Sent(ms)
    ensures AsCommands(Feed([], chunks, role).commands, parses) == OnWireAll(AsCommands(ms, parses))
  {
    SentAndReceived(ms, role, chunks);
    var got := Feed([], chunks, role).commands;
    hide Feed, Same, Sendable, AsCommand, Runs.OnWire;
    forall i | 0 <= i < |ms|
      ensures AsCommand(got[i], parses) == Runs.OnWire(AsCommand(ms[i], parses))
    {
      assert Sendable(ms[i], role) && Same(got[i], ms[i]);
      SameMeaning(got[i], ms[i], role, parses);
    }
  }

  /** The confirmation of a cancel is encoded under the id of an update, read back as an
      empty update, and processed as the confirmation it was, exactly when it names the
      sid of the subscription or would have been refused anyway. */
  lemma ConfirmationSurvives(c: Circuit.Circuit, m: Message, rest: Bytes, parses: Bytes -> bool)
    requires Expected.Good(c) && m.kind.EventCancelResponse? && Sendable(m, Server)
    requires var id := m.header.parameter2;
             id in c.eventCancels && c.eventCancels[id] == c.eventAdds[id]
    ensures var r := ReadFromBytestream(SentBytes(m) + rest, Server);
            var add := c.eventAdds[m.header.parameter2];
            && r.Got? && r.rest == rest && r.command.kind.EventAddResponse?
            && (Circuit.Process(c, AsCommand(r.command, parses)) == Circuit.Process(c, AsCommand(m, parses)) <==>
                if AsCommand(m, parses).KnownType() then
                  || m.header.parameter1 == add.Sid()
                  || add.Sid() !in c.channelsSid
                  || add.dataType != m.header.dataType
                else
                  add.Sid() in c.channelsSid)
  {
    SentIsEncoded(m);
    FirstReadBack(m, Server, rest);
    var r := ReadFromBytestream(SentBytes(m) + rest, Server);
    SameMeaning(r.command, m, Server, parses);
    Runs.ConflationUndone(c, AsCommand(m, parses));
    hide ReadFromBytestream, MessageBytes, SentBytes, Circuit.Process, Drain, Sendable, Expected.Good;
  }

  // ----- send

  lemma {:induction false} ProcessOneMore(c: Circuit.Circuit, cmds: seq<Command>, cmd: Command)
    requires c.Wf() && Runs.ProcessAll(c, cmds).circuit.Wf()
    ensures var r := Runs.ProcessAll(c, cmds);
            if r.outcome.Rejected? then Runs.ProcessAll(c, cmds + [cmd]) == r
            else
              var last := Circuit.Process(r.circuit, cmd);
              Runs.ProcessAll(c, cmds + [cmd]) == if last.outcome.Rejected? then last else Circuit.Accept(last.circuit)
    decreases |cmds|
  {
    hide Circuit.Process;
    if cmds == [] {
      assert cmds + [cmd] == [cmd];
    } else {
      LockStep.ExecKeepsWf(c, LockStep.Handle(cmds[0]));
      assert (cmds + [cmd])[1..] == cmds[1..] + [cmd];
      if !Circuit.Process(c, cmds[0]).outcome.Rejected? {
        ProcessOneMore(Circuit.Process(c, cmds[0]).circuit, cmds[1..], cmd);
      }
    }
  }

  /** What a prefix of the commands refuses, the whole list refuses. */
  lemma {:induction false} RefusedEarly(c: Circuit.Circuit, cmds: seq<Command>, more: seq<Command>)
    requires c.Wf() && Runs.ProcessAll(c, cmds).outcome.Rejected?
    ensures Runs.ProcessAll(c, cmds + more) == Runs.ProcessAll(c, cmds)
    decreases |cmds|
  {
    hide Circuit.Process;
    LockStep.ExecKeepsWf(c, LockStep.Handle(cmds[0]));
    assert (cmds + more)[1..] == cmds[1..] + more;
    if !Circuit.Process(c, cmds[0]).outcome.Rejected? {
      RefusedEarly(Circuit.Process(c, cmds[0]).circuit, cmds[1..], more);
    }
  }

  lemma NothingSent(c: Circuit.Circuit, parses: Bytes -> bool)
    requires c.Wf()
    ensures Runs.ProcessAll(c, AsCommands([], parses)) == Circuit.Accept(c)
    ensures Sent([]) == Joined([]) == []
  {}

  /** Message number `i`, after all those before it were accepted. */
  lemma ProcessNext(c: Circuit.Circuit, ms: seq<Message>, i: nat, parses: Bytes -> bool, before: Circuit.Circuit)
    requires c.Wf() && before.Wf() && i < |ms|
    requires Runs.ProcessAll(c, AsCommands(ms[..i], parses)) == Circuit.Accept(before)
    ensures var r := Circuit.Process(before, AsCommand(ms[i], parses));
            if r.outcome.Rejected? then Runs.ProcessAll(c, AsCommands(ms, parses)) == r
            else Runs.ProcessAll(c, AsCommands(ms[..i + 1], parses)) == Circuit.Accept(r.circuit)
  {
    hide Circuit.Process, Runs.ProcessAll, AsCommand;
    var front, next := AsCommands(ms[..i], parses), AsCommand(ms[i], parses);
    ProcessOneMore(c, front, next);
    assert AsCommands(ms[..i + 1], parses) == front + [next];
    if Circuit.Process(before, next).outcome.Rejected? {
      RefusedEarly(c, front + [next], AsCommands(ms[i + 1..], parses));
      assert AsCommands(ms, parses) == front + [next] + AsCommands(ms[i + 1..], parses);
    }
  }

  lemma {:induction false} SentSnoc(ms: seq<Message>, m: Message)
    ensures Sent(ms + [m]) == Sent(ms) + SentBytes(m)
    decreases |ms|
  {
    hide SentBytes;
    if ms == [] {
      assert ms + [m] == [m];
    } else {
      assert (ms + [m])[1..] == ms[1..] + [m];
      SentSnoc(ms[1..], m);
    }
  }

  lemma SendNext(buffers: seq<Bytes>, ms: seq<Message>, i: nat)
    requires i < |ms| && Joined(buffers) == Sent(ms[..i])
    ensures Joined(buffers + [HeaderBytes(ms[i].header)] + ms[i].buffers) == Sent(ms[..i + 1])
  {
    hide Joined, Sent, HeaderBytes;
    var header, payload := HeaderBytes(ms[i].header), Joined(ms[i].buffers);
    JoinedSnoc(buffers, header);
    JoinedConcat(buffers + [header], ms[i].buffers);
    SentSnoc(ms[..i], ms[i]);
    assert ms[..i + 1] == ms[..i] + [ms[i]];
    assert Joined(buffers) + header + payload == Joined(buffers) + (header + payload);
  }
}
