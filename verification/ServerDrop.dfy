/** What becomes of requests that are on their way while the server drops a channel on its
    own account, which the two-party model leaves out. */
module ServerDrop {
  import opened Protocol
  import opened States
  import opened Circuit
  import opened LockStep
  import opened Expected
  import opened TablesKept
  import opened Refinement
  import opened Session

  /** The request is about channel `cid`, by its sid or by its cid. */
  predicate Concerns(s: Session, cid: nat, q: Command) {
    || ((q.kind.NamesSid() || q.kind.EventCancelRequest?) && q.Sid() in s.sids && s.sids[q.Sid()] == cid)
    || (q.kind.ClearChannelRequest? && q.Cid() == cid)
  }

  /** The session without one channel. Its subscriptions stay, as in the source. */
  function Dropped(s: Session, cid: nat): Session {
    s.(chans := s.chans - {cid}, sids := Without(s.sids, cid), ioids := Without(s.ioids, cid))
  }

  /** After the drop exactly the requests about that channel are no longer possible. */
  lemma GuardAfterDrop(s: Session, cid: nat, q: Command)
    requires IsRequest(q) && Guard(s, q) && cid in s.chans
    ensures Guard(Dropped(s, cid), q) <==> !Concerns(s, cid, q)
    ensures Assumed(Dropped(s, cid), q)
  {}

  lemma DropExpected(c: Circuit, drop: Command)
    requires c.Wf() && drop.kind.ServerDisconnResponse? && drop.Cid() in c.channels
    requires IsOpen(c.store[c.channels[drop.Cid()]])
    ensures var ref := c.channels[drop.Cid()];
            Expect(c, drop) == RemoveChannel(SetPhases(c, ref, Pair(Closed, Closed)), ref)
  {
    hide RemoveChannel, SetPhases;
  }

  lemma DropAbs(c: Circuit, drop: Command)
    requires Live(c) && drop.kind.ServerDisconnResponse? && drop.Cid() in c.channels
    requires IsOpen(c.store[c.channels[drop.Cid()]])
    ensures Process(c, drop).outcome.Accepted? && Live(Process(c, drop).circuit)
    ensures Abs(Process(c, drop).circuit) == Dropped(Abs(c), drop.Cid())
    ensures drop.Cid() in Abs(c).chans
  {
    var ref := c.channels[drop.Cid()];
    assert Good(c) && c.Wf() && Listed(c, ref) && c.store[ref].cid == drop.Cid();
    assert Assumed(Abs(c), drop);
    assert Process(c, drop) == ProcessForChannel(c, drop);
    ProcessKeepsLive(c, drop);
    ProcessAsExpected(c, drop);
    DropExpected(c, drop);
    RemoveAbs(c, ref);
    hide Good, Live, Process, ProcessForChannel, RemoveChannel, SetPhases, Expect, Circuit.Wf, WithoutChannel;
  }

  /** A request that the server would have accepted is accepted after the drop exactly when
      it is not about the channel that was dropped. */
  lemma RequestAfterDrop(c: Circuit, drop: Command, q: Command)
    requires Live(c) && drop.kind.ServerDisconnResponse? && drop.Cid() in c.channels
    requires IsOpen(c.store[c.channels[drop.Cid()]])
    requires IsRequest(q) && Guard(Abs(c), q)
    ensures Process(c, q).outcome.Accepted? && Process(c, drop).outcome.Accepted?
    ensures Process(c, drop).circuit.Wf()
    ensures Process(Process(c, drop).circuit, q).outcome.Accepted? <==> !Concerns(Abs(c), drop.Cid(), q)
  {
    GuardAssumes(Abs(c), q);
    DropAbs(c, drop);
    GuardAfterDrop(Abs(c), drop.Cid(), q);
    assert c.Wf() && Process(c, drop).circuit.Wf();
    hide Live, Abs, Guard, Concerns, Process, Assumed, Dropped, IsRequest;
    Refines(c, q);
    Refines(Process(c, drop).circuit, q);
  }
}
