/** Identifiers: a counter that wraps around at 2^16 and skips the ids in a live table. */
module Ids {

  const MAX_ID: nat := 0x1_0000

  /** Where a counter can stand: before the first id, or anywhere at or after it. */
  type Place = value: int | -1 <= value witness -1

  /** The first id looked at by a counter that stands at `value`. */
  function Start(value: Place): nat
  {
    if value + 1 >= MAX_ID then 0 else value + 1
  }

  /** How far `id` lies ahead of `start`, going up and around. */
  function Offset(start: nat, id: nat): int
  {
    if id >= start then id - start else id + MAX_ID - start
  }

  predicate IsFree(taken: set<nat>, id: nat) {
    id < 0x1_0000 && id !in taken
  }

  /** `id` is the cyclically next free id after `value`. */
  ghost predicate IsNext(value: Place, taken: set<nat>, id: nat)
  {
    && IsFree(taken, id)
    && forall other: nat | IsFree(taken, other) :: Offset(Start(value), id) <= Offset(Start(value), other)
  }

  lemma NextIsUnique(value: Place, taken: set<nat>, a: nat, b: nat)
    requires IsNext(value, taken, a) && IsNext(value, taken, b)
    ensures a == b
  {}

  class Counter {
    var value: Place

    constructor (initial: Place := -1)
      ensures value == initial
    {
      value := initial;
    }

    /** The lock of the source is modelled by the atomicity of this method; `taken` is
        the set of keys of the live table. Without a free id the loop would not end. */
    method Next(taken: set<nat>) returns (id: nat)
      requires exists free: nat :: IsFree(taken, free)
      modifies this
      ensures IsNext(old(value), taken, id)
      ensures value == id
    {
      ghost var start := Start(value);
      ghost var free: nat :| IsFree(taken, free);
      ghost var n: nat := 0;                      // ids found taken so far
      var candidate: nat := value + 1;
      while candidate in taken || candidate >= MAX_ID
        invariant forall other: nat | IsFree(taken, other) :: Offset(start, other) >= n
        invariant if candidate >= MAX_ID then n == 0 || start + n == MAX_ID
                  else candidate == start + n || candidate + MAX_ID == start + n
        invariant candidate >= MAX_ID && n == 0 ==> start == 0
        decreases MAX_ID - n, candidate
      {
        if candidate >= MAX_ID {
          candidate := 0;
        } else {
          assert !IsFree(taken, candidate);
          assert forall other: nat | IsFree(taken, other) :: Offset(start, other) != n;
          candidate := candidate + 1;
          n := n + 1;
        }
        assert Offset(start, free) >= n;
      }
      value := candidate;
      id := candidate;
    }
  }

  // ----- many calls

  /** Where the counter stands when it is asked for id number `i`. */
  function Standing(value: Place, ids: seq<nat>, i: nat): Place
    requires i < |ids|
  {
    if i == 0 then value else ids[i - 1]
  }

  /** Ids handed out one after the other while the table does not change. */
  ghost predicate HandedOut(value: Place, taken: set<nat>, ids: seq<nat>)
  {
    forall i | 0 <= i < |ids| :: IsNext(Standing(value, ids, i), taken, ids[i])
  }

  function FreeIds(taken: set<nat>): set<nat> {
    set id: nat | id < MAX_ID && IsFree(taken, id)
  }

  function Elements(ids: seq<nat>): set<nat> {
    set id | id in ids
  }

  lemma {:induction false} FewElements(ids: seq<nat>)
    ensures |Elements(ids)| <= |ids|
  {
    if ids != [] {
      var last := |ids| - 1;
      FewElements(ids[..last]);
      assert Elements(ids) == Elements(ids[..last]) + {ids[last]};
    }
  }

  lemma SomeLeft(taken: set<nat>, ids: seq<nat>) returns (left: nat)
    requires |ids| < |FreeIds(taken)|
    ensures IsFree(taken, left) && left !in ids
  {
    FewElements(ids);
    if FreeIds(taken) <= Elements(ids) {
      SubsetSize(FreeIds(taken), Elements(ids));
      assert false;
    }
    left :| left in FreeIds(taken) && left !in Elements(ids);
  }

  lemma SubsetSize(a: set<nat>, b: set<nat>)
    requires a <= b
    ensures |a| <= |b|
  {
    assert b == a + (b - a);
  }

  /** `ids` lists free ids in cyclic order after `value`, leaving out none before its last. */
  ghost predicate InCyclicOrder(value: Place, taken: set<nat>, ids: seq<nat>)
  {
    && (forall i | 0 <= i < |ids| :: IsFree(taken, ids[i]))
    && (forall i, j | 0 <= i < j < |ids| :: Offset(Start(value), ids[i]) < Offset(Start(value), ids[j]))
    && (ids != [] ==>
          forall id: nat | IsFree(taken, id) && Offset(Start(value), id) <= Offset(Start(value), ids[|ids| - 1]) ::
            id in ids)
  }

  lemma OneMoreInOrder(value: Place, taken: set<nat>, front: seq<nat>, next: nat)
    requires front != [] && InCyclicOrder(value, taken, front)
    requires |front| < |FreeIds(taken)| && IsNext(front[|front| - 1], taken, next)
    ensures InCyclicOrder(value, taken, front + [next])
  {
    var previous := front[|front| - 1];
    var left := SomeLeft(taken, front);
    assert Offset(Start(value), previous) < Offset(Start(value), left);
    NextIsAhead(value, taken, previous, next, left);
    forall id: nat | IsFree(taken, id) && Offset(Start(value), id) <= Offset(Start(value), next)
      ensures id in front + [next]
    {
      if Offset(Start(value), id) > Offset(Start(value), previous) {
        NextIsAhead(value, taken, previous, next, id);
        SameOffset(Start(value), id, next);
      }
    }
    var ids := front + [next];
    forall i, j | 0 <= i < j < |ids|
      ensures Offset(Start(value), ids[i]) < Offset(Start(value), ids[j])
    {
      assert i < |front| && (i < |front| - 1 ==> Offset(Start(value), front[i]) < Offset(Start(value), previous));
    }
    hide Offset, IsNext, FreeIds;
  }

  /** The free ids up to the last one handed out are exactly those handed out. */
  lemma {:induction false} CyclicOrder(value: Place, taken: set<nat>, ids: seq<nat>)
    requires HandedOut(value, taken, ids) && |ids| <= |FreeIds(taken)|
    ensures InCyclicOrder(value, taken, ids)
    decreases |ids|
  {
    hide IsNext, FreeIds, HandedOut, Offset;
    if |ids| == 1 {
      FirstInOrder(value, taken, ids);
    } else if |ids| > 1 {
      hide InCyclicOrder;
      var n := |ids| - 1;
      LastHandedOut(value, taken, ids);
      CyclicOrder(value, taken, ids[..n]);
      assert ids == ids[..n] + [ids[n]];
      OneMoreInOrder(value, taken, ids[..n], ids[n]);
    }
  }

  lemma FirstInOrder(value: Place, taken: set<nat>, ids: seq<nat>)
    requires |ids| == 1 && HandedOut(value, taken, ids)
    ensures InCyclicOrder(value, taken, ids)
  {
    assert IsNext(Standing(value, ids, 0), taken, ids[0]);
    forall id: nat | IsFree(taken, id) && Offset(Start(value), id) <= Offset(Start(value), ids[0])
      ensures id in ids
    {
      SameOffset(Start(value), id, ids[0]);
    }
  }

  lemma LastHandedOut(value: Place, taken: set<nat>, ids: seq<nat>)
    requires |ids| > 1 && HandedOut(value, taken, ids)
    ensures var n := |ids| - 1;
            HandedOut(value, taken, ids[..n]) && IsNext(ids[n - 1], taken, ids[n])
  {
    hide IsNext;
    var n := |ids| - 1;
    assert IsNext(Standing(value, ids, n), taken, ids[n]);
    assert forall i | 0 <= i < n :: Standing(value, ids[..n], i) == Standing(value, ids, i);
  }

  lemma SameOffset(start: nat, a: nat, b: nat)
    requires start < MAX_ID && a < MAX_ID && b < MAX_ID && Offset(start, a) == Offset(start, b)
    ensures a == b
  {}

  /** If a free id lies ahead of `previous` then so does the one that comes next, and it
      is not past it. */
  lemma NextIsAhead(value: Place, taken: set<nat>, previous: nat, next: nat, ahead: nat)
    requires IsFree(taken, previous) && IsNext(previous, taken, next)
    requires IsFree(taken, ahead) && Offset(Start(value), previous) < Offset(Start(value), ahead)
    ensures Offset(Start(value), previous) < Offset(Start(value), next) <= Offset(Start(value), ahead)
  {}

  /** As long as there are enough free ids, calls hand out distinct ids in cyclic order;
      as many calls as there are free ids hand out all of them. */
  lemma DistinctIds(value: Place, taken: set<nat>, ids: seq<nat>)
    requires HandedOut(value, taken, ids) && |ids| <= |FreeIds(taken)|
    ensures forall i, j | 0 <= i < j < |ids| :: ids[i] != ids[j]
    ensures |ids| == |FreeIds(taken)| ==> Elements(ids) == FreeIds(taken)
  {
    CyclicOrder(value, taken, ids);
    if |ids| == |FreeIds(taken)| {
      DistinctSize(ids);
      assert Elements(ids) <= FreeIds(taken);
      forall missing: nat | missing in FreeIds(taken)
        ensures missing in Elements(ids)
      {
        if missing !in Elements(ids) {
          SubsetSize(Elements(ids) + {missing}, FreeIds(taken));
          assert false;
        }
      }
    }
  }

  lemma {:induction false} DistinctSize(ids: seq<nat>)
    requires forall i, j | 0 <= i < j < |ids| :: ids[i] != ids[j]
    ensures |Elements(ids)| == |ids|
  {
    if ids != [] {
      var last := |ids| - 1;
      DistinctSize(ids[..last]);
      assert Elements(ids) == Elements(ids[..last]) + {ids[last]};
    }
  }
}
