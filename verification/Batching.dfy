/** Greedy batching of requests, for search datagrams. */
module Batching {

  function Size<T>(batch: seq<T>, length: T -> nat): nat
    decreases |batch|
  {
    if batch == [] then 0 else Size(batch[..|batch| - 1], length) + length(batch[|batch| - 1])
  }

  function Flatten<T>(batches: seq<seq<T>>): seq<T>
    decreases |batches|
  {
    if batches == [] then [] else Flatten(batches[..|batches| - 1]) + batches[|batches| - 1]
  }

  /** Within the limit, or a single item that is too long by itself. */
  predicate Acceptable<T>(batch: seq<T>, length: T -> nat, max: int) {
    Size(batch, length) <= max || |batch| <= 1
  }

  /** The item that opens `next` would not have fitted into `batch`. */
  predicate Full<T>(batch: seq<T>, next: seq<T>, length: T -> nat, max: int) {
    next != [] && Size(batch, length) + length(next[0]) > max
  }

  predicate Greedy<T>(batches: seq<seq<T>>, length: T -> nat, max: int) {
    && (forall i | 0 <= i < |batches| :: Acceptable(batches[i], length, max))
    && (forall i | 1 <= i < |batches| :: Full(batches[i - 1], batches[i], length, max))
  }

  lemma Snoc<T>(batches: seq<seq<T>>, batch: seq<T>)
    ensures Flatten(batches + [batch]) == Flatten(batches) + batch
  {
    assert (batches + [batch])[..|batches|] == batches;
  }

  lemma SizeSnoc<T>(batch: seq<T>, item: T, length: T -> nat)
    ensures Size(batch + [item], length) == Size(batch, length) + length(item)
  {
    assert (batch + [item])[..|batch|] == batch;
  }

  lemma NothingYet<T>(length: T -> nat, max: int)
    ensures Size<T>([], length) == 0 && Flatten<T>([]) == [] && Greedy<T>([], length, max)
  {}

  lemma AddBatch<T>(batches: seq<seq<T>>, batch: seq<T>, length: T -> nat, max: int)
    requires Greedy(batches, length, max) && Acceptable(batch, length, max)
    requires batches != [] ==> Full(batches[|batches| - 1], batch, length, max)
    ensures Greedy(batches + [batch], length, max)
  {}

  /** The batches in the order they are yielded. The bound is on the sum of the lengths;
      an empty batch comes out exactly when the very first item is too long. */
  method BatchRequests<T>(items: seq<T>, length: T -> nat, max: int) returns (batches: seq<seq<T>>)
    ensures Flatten(batches) == items
    ensures Greedy(batches, length, max)
    ensures batches != [] && batches[0] == [] <==> items != [] && length(items[0]) > max
  {
    hide Size, Flatten, Greedy;
    NothingYet<T>(length, max);
    var size, batch := 0, [];
    batches := [];
    for n := 0 to |items|
      invariant size == Size(batch, length) && (size <= max || |batch| <= 1)
      invariant Flatten(batches) + batch == items[..n]
      invariant Greedy(batches, length, max)
      invariant batches != [] ==> Full(batches[|batches| - 1], batch, length, max)
      invariant batch == [] <==> n == 0
      invariant n == 0 ==> batches == []
      invariant batches != [] ==> (batches[0] == [] <==> length(items[0]) > max)
      invariant batches == [] && n > 0 ==> length(batch[0]) <= max
    {
      var item := items[n];
      SizeSnoc(batch, item, length);
      if size + length(item) > max {
        Snoc(batches, batch);
        AddBatch(batches, batch, length, max);
        batches := batches + [batch];
        batch := [];
        size := 0;
        SizeSnoc(batch, item, length);
      }
      batch := batch + [item];
      size := size + length(item);
      assert items[..n + 1] == items[..n] + [item];
    }
    assert items[..|items|] == items;
    if batch != [] {
      Snoc(batches, batch);
      AddBatch(batches, batch, length, max);
      batches := batches + [batch];
    }
  }

  // ----- no split of the items uses fewer batches

  function Useful<T(==)>(batches: seq<seq<T>>): seq<seq<T>> {
    if batches != [] && batches[0] == [] then batches[1..] else batches
  }

  /** Where batch number `i` begins. */
  function Begin<T>(batches: seq<seq<T>>, i: nat): nat
    requires i <= |batches|
  {
    |Flatten(batches[..i])|
  }

  lemma {:induction false} BatchIsSlice<T>(batches: seq<seq<T>>, i: nat)
    requires i < |batches|
    ensures Begin(batches, i + 1) == Begin(batches, i) + |batches[i]| <= |Flatten(batches)|
    ensures batches[i] == Flatten(batches)[Begin(batches, i)..Begin(batches, i + 1)]
    decreases |batches|
  {
    var n := |batches| - 1;
    assert batches == batches[..n] + [batches[n]];
    Snoc(batches[..n], batches[n]);
    if i < n {
      BatchIsSlice(batches[..n], i);
      assert batches[..n][..i] == batches[..i] && batches[..n][..i + 1] == batches[..i + 1];
    } else {
      assert batches[..i + 1] == batches;
    }
  }

  lemma EndOfAll<T>(batches: seq<seq<T>>)
    ensures Begin(batches, |batches|) == |Flatten(batches)|
  {
    assert batches[..|batches|] == batches;
  }

  lemma SliceOfSlice<T>(items: seq<T>, from: nat, to: nat, a: nat, b: nat)
    requires from <= to <= |items| && a <= b <= to - from
    ensures items[from..to][a..b] == items[from + a..from + b]
  {
    var left, right := items[from..to][a..b], items[from + a..from + b];
    assert forall k | 0 <= k < b - a :: left[k] == right[k];
    assert |left| == |right|;
  }

  lemma LastOfSlice<T>(items: seq<T>, from: nat, last: nat)
    requires from <= last < |items|
    ensures items[from..last + 1] == items[from..last] + [items[last]]
  {}

  lemma {:induction false} SizeOfConcat<T>(a: seq<T>, b: seq<T>, length: T -> nat)
    ensures Size(a + b, length) == Size(a, length) + Size(b, length)
    decreases |b|
  {
    if b == [] {
      assert a + b == a;
    } else {
      var n := |b| - 1;
      assert (a + b)[..|a| + n] == a + b[..n];
      SizeOfConcat(a, b[..n], length);
    }
  }

  lemma SizeOfPart<T>(whole: seq<T>, from: nat, to: nat, length: T -> nat)
    requires from <= to <= |whole|
    ensures Size(whole[from..to], length) <= Size(whole, length)
  {
    SizeOfConcat(whole[..from], whole[from..to], length);
    SizeOfConcat(whole[..to], whole[to..], length);
    assert whole[..from] + whole[from..to] == whole[..to] && whole[..to] + whole[to..] == whole;
  }

  /** A greedy split without an empty batch. */
  predicate GreedyAndUseful<T(==)>(batches: seq<seq<T>>, length: T -> nat, max: int) {
    Greedy(batches, length, max) && forall i | 0 <= i < |batches| :: batches[i] != []
  }

  /** A greedy split is never behind another one, batch for batch. */
  lemma {:induction false} GreedyStaysAhead<T>(
      greedy: seq<seq<T>>, other: seq<seq<T>>, length: T -> nat, max: int, i: nat)
    requires GreedyAndUseful(greedy, length, max) && Flatten(greedy) == Flatten(other)
    requires forall j | 0 <= j < |other| :: Acceptable(other[j], length, max)
    requires i <= |greedy| && i <= |other|
    ensures Begin(greedy, i) >= Begin(other, i)
  {
    if i > 0 {
      GreedyStaysAhead(greedy, other, length, max, i - 1);
      hide Begin, Greedy, Acceptable;
      if Begin(greedy, i) < Begin(other, i) {
        FallingBehind(greedy, other, length, max, i - 1);
        assert false;
      }
    }
  }

  lemma FallingBehind<T>(greedy: seq<seq<T>>, other: seq<seq<T>>, length: T -> nat, max: int, i: nat)
    requires GreedyAndUseful(greedy, length, max) && Flatten(greedy) == Flatten(other)
    requires i < |greedy| && i < |other|
    requires Begin(greedy, i) >= Begin(other, i) && Begin(greedy, i + 1) < Begin(other, i + 1)
    ensures !Acceptable(other[i], length, max)
  {
    BatchIsSlice(greedy, i);
    BatchIsSlice(other, i);
    EndOfAll(greedy);
    BatchIsSlice(greedy, i + 1);
    assert Full(greedy[i], greedy[i + 1], length, max);
    hide Begin, Flatten, Greedy;
    Overfull(Flatten(greedy), Begin(greedy, i), Begin(greedy, i + 1), Begin(other, i), Begin(other, i + 1), length);
  }

  /** A slice that covers another one and the item after it holds at least as much. */
  lemma Overfull<T>(items: seq<T>, from: nat, next: nat, wideFrom: nat, wideTo: nat, length: T -> nat)
    requires wideFrom <= from <= next < wideTo <= |items|
    ensures Size(items[wideFrom..wideTo], length) >= Size(items[from..next], length) + length(items[next])
  {
    hide Size;
    SizeOfPart(items[wideFrom..wideTo], from - wideFrom, next + 1 - wideFrom, length);
    SliceOfSlice(items, wideFrom, wideTo, from - wideFrom, next + 1 - wideFrom);
    LastOfSlice(items, from, next);
    SizeSnoc(items[from..next], items[next], length);
  }

  /** Any split into acceptable batches, in order, has at least as many batches. */
  lemma GreedyIsOptimal<T>(greedy: seq<seq<T>>, other: seq<seq<T>>, length: T -> nat, max: int)
    requires Greedy(greedy, length, max) && Flatten(greedy) == Flatten(other)
    requires forall j | 0 <= j < |other| :: Acceptable(other[j], length, max)
    ensures |Useful(greedy)| <= |other|
  {
    var useful, n := Useful(greedy), |other|;
    UsefulIsGreedy(greedy, length, max);
    if |useful| > n {
      GreedyStaysAhead(useful, other, length, max, n);
      assert other[..n] == other;
      BatchIsSlice(useful, n);
      assert false;
    }
  }

  lemma UsefulIsGreedy<T>(batches: seq<seq<T>>, length: T -> nat, max: int)
    requires Greedy(batches, length, max)
    ensures GreedyAndUseful(Useful(batches), length, max)
    ensures Flatten(Useful(batches)) == Flatten(batches)
  {
    if batches != [] && batches[0] == [] {
      DropEmpty(batches);
      var useful := batches[1..];
      forall i | 0 <= i < |useful|
        ensures useful[i] != [] && Acceptable(useful[i], length, max)
        ensures i >= 1 ==> Full(useful[i - 1], useful[i], length, max)
      {
        assert Full(batches[i], batches[i + 1], length, max);
      }
    } else {
      forall i | 1 <= i < |batches|
        ensures batches[i] != []
      {
        assert Full(batches[i - 1], batches[i], length, max);
      }
    }
  }

  lemma {:induction false} DropEmpty<T>(batches: seq<seq<T>>)
    requires batches != [] && batches[0] == []
    ensures Flatten(batches[1..]) == Flatten(batches)
    decreases |batches|
  {
    var n := |batches| - 1;
    if n == 0 {
      assert batches[1..] == [] && batches[..n] == [];
    } else {
      DropEmpty(batches[..n]);
      assert batches[1..][..n - 1] == batches[..n][1..] && batches[1..][n - 1] == batches[n];
    }
  }

  // ----- when the limit is kept

  lemma {:induction false} BatchOf<T>(batches: seq<seq<T>>, k: nat) returns (i: nat)
    requires k < |Flatten(batches)|
    ensures i < |batches| && Begin(batches, i) <= k < Begin(batches, i + 1)
    decreases |batches|
  {
    var n := |batches| - 1;
    if k < |Flatten(batches[..n])| {
      i := BatchOf(batches[..n], k);
      assert batches[..n][..i] == batches[..i] && batches[..n][..i + 1] == batches[..i + 1];
    } else {
      i := n;
      EndOfAll(batches);
    }
  }

  lemma ItemWithinBatch<T>(batches: seq<seq<T>>, length: T -> nat, k: nat) returns (i: nat)
    requires k < |Flatten(batches)|
    ensures i < |batches| && length(Flatten(batches)[k]) <= Size(batches[i], length)
  {
    i := BatchOf(batches, k);
    BatchIsSlice(batches, i);
    var items, from, to := Flatten(batches), Begin(batches, i), Begin(batches, i + 1);
    hide Begin, Flatten;
    Overfull(items, k, k, from, to, length);
  }

  lemma OversizedItem<T>(batches: seq<seq<T>>, length: T -> nat, max: int, i: nat) returns (k: nat)
    requires Greedy(batches, length, max) && i < |batches| && Size(batches[i], length) > max
    requires batches[0] == [] ==> Flatten(batches) != [] && length(Flatten(batches)[0]) > max
    ensures k < |Flatten(batches)| && length(Flatten(batches)[k]) > max
  {
    if batches[0] == [] {
      k := 0;
    } else {
      assert i > 0 ==> Full(batches[i - 1], batches[i], length, max);
      BatchIsSlice(batches, i);
      assert Acceptable(batches[i], length, max) && |batches[i]| == 1;
      assert Size(batches[i], length) == length(batches[i][0]) by {
        assert batches[i][..0] == [];
      }
      k := Begin(batches, i);
    }
  }

  /** Every batch keeps to the limit exactly when every item does. `batches` is any
      sequence with the properties that BatchRequests promises. */
  lemma LimitKept<T>(batches: seq<seq<T>>, length: T -> nat, max: int)
    requires Greedy(batches, length, max)
    requires batches != [] && batches[0] == [] ==> Flatten(batches) != [] && length(Flatten(batches)[0]) > max
    ensures (forall i | 0 <= i < |batches| :: Size(batches[i], length) <= max)
            <==> (forall k | 0 <= k < |Flatten(batches)| :: length(Flatten(batches)[k]) <= max)
  {
    hide Greedy, Size, Flatten;
    forall k | 0 <= k < |Flatten(batches)| && length(Flatten(batches)[k]) > max
      ensures exists i :: 0 <= i < |batches| && Size(batches[i], length) > max
    {
      var i := ItemWithinBatch(batches, length, k);
    }
    forall i | 0 <= i < |batches| && Size(batches[i], length) > max
      ensures exists k :: 0 <= k < |Flatten(batches)| && length(Flatten(batches)[k]) > max
    {
      var k := OversizedItem(batches, length, max, i);
    }
  }

  // ----- the limit that is documented: less than `max`, not at most

  predicate AllBelow<T>(batches: seq<seq<T>>, length: T -> nat, bound: int) {
    forall i | 0 <= i < |batches| :: Size(batches[i], length) < bound
  }

  /** The running size after these items: an item that would take it above the limit
      starts anew. It depends on the items alone. */
  function Filling<T>(items: seq<T>, length: T -> nat, max: int): nat
    decreases |items|
  {
    if items == [] then 0
    else
      var before := Filling(items[..|items| - 1], length, max);
      var last := length(items[|items| - 1]);
      if before + last > max then last else before + last
  }

  predicate NeverFilled<T>(items: seq<T>, length: T -> nat, max: int) {
    forall n | 0 < n <= |items| :: Filling(items[..n], length, max) < max
  }

  lemma FillingSnoc<T>(items: seq<T>, item: T, length: T -> nat, max: int)
    ensures var before := Filling(items, length, max);
            Filling(items + [item], length, max) ==
            if before + length(item) > max then length(item) else before + length(item)
  {
    assert (items + [item])[..|items|] == items;
  }

  lemma SizeOfOne<T>(item: T, length: T -> nat)
    ensures Size([item], length) == length(item)
  {
    SizeSnoc([], item, length);
    assert [] + [item] == [item];
  }

  /** The running size after item `n - 1` is that of its batch so far. */
  lemma {:induction false} FillingIsPart<T>(batches: seq<seq<T>>, length: T -> nat, max: int, i: nat, n: nat)
    requires GreedyAndUseful(batches, length, max) && i < |batches|
    requires Begin(batches, i) < n <= Begin(batches, i + 1) <= |Flatten(batches)|
    ensures Filling(Flatten(batches)[..n], length, max) == Size(Flatten(batches)[Begin(batches, i)..n], length)
    decreases n
  {
    var items, from := Flatten(batches), Begin(batches, i);
    assert items[..n] == items[..n - 1] + [items[n - 1]];
    FillingSnoc(items[..n - 1], items[n - 1], length, max);
    BatchIsSlice(batches, i);
    hide Filling, Size, Flatten;
    if n - 1 > from {
      FillingIsPart(batches, length, max, i, n - 1);
      LaterInBatch(batches, length, max, i, n);
    } else {
      FirstOfBatch(batches, length, max, i);
      assert items[from..n] == [items[from]];
      SizeOfOne(items[from], length);
      if i > 0 {
        BatchIsSlice(batches, i - 1);
        FillingIsPart(batches, length, max, i - 1, n - 1);
      } else {
        NothingFilled(items[..0], length, max);
      }
    }
  }

  /** An item that does not open its batch fits into what the batch holds so far. */
  lemma LaterInBatch<T>(batches: seq<seq<T>>, length: T -> nat, max: int, i: nat, n: nat)
    requires GreedyAndUseful(batches, length, max) && i < |batches|
    requires Begin(batches, i) + 1 < n <= Begin(batches, i + 1) <= |Flatten(batches)|
    ensures var items, from := Flatten(batches), Begin(batches, i);
            var before := Size(items[from..n - 1], length);
            before + length(items[n - 1]) <= max && Size(items[from..n], length) == before + length(items[n - 1])
  {
    var items, from := Flatten(batches), Begin(batches, i);
    BatchIsSlice(batches, i);
    assert Acceptable(batches[i], length, max);
    hide *;
    SliceWithin(items, from, n, Begin(batches, i + 1), length, max);
  }

  lemma SliceWithin<T>(items: seq<T>, from: nat, n: nat, to: nat, length: T -> nat, max: int)
    requires from + 1 < n <= to <= |items| && Acceptable(items[from..to], length, max)
    ensures var before := Size(items[from..n - 1], length);
            before + length(items[n - 1]) <= max && Size(items[from..n], length) == before + length(items[n - 1])
  {
    hide Size;
    LastOfSlice(items, from, n - 1);
    SizeSnoc(items[from..n - 1], items[n - 1], length);
    SizeOfPart(items[from..to], 0, n - from, length);
    SliceOfSlice(items, from, to, 0, n - from);
  }

  lemma NothingFilled<T>(items: seq<T>, length: T -> nat, max: int)
    requires items == []
    ensures Filling(items, length, max) == 0
  {}

  /** The item that opens a batch did not fit into the one before it. */
  lemma FirstOfBatch<T>(batches: seq<seq<T>>, length: T -> nat, max: int, i: nat)
    requires GreedyAndUseful(batches, length, max) && i < |batches|
    ensures i == 0 ==> Begin(batches, i) == 0
    ensures Begin(batches, i) < |Flatten(batches)|
    ensures i > 0 ==> Size(batches[i - 1], length) + length(Flatten(batches)[Begin(batches, i)]) > max
  {
    BatchIsSlice(batches, i);
    assert batches[..0] == [];
    if i > 0 {
      assert Full(batches[i - 1], batches[i], length, max);
      assert batches[i][0] == Flatten(batches)[Begin(batches, i)];
    }
  }

  lemma UsefulBelowLimit<T>(batches: seq<seq<T>>, length: T -> nat, max: int)
    requires GreedyAndUseful(batches, length, max)
    ensures AllBelow(batches, length, max) <==> NeverFilled(Flatten(batches), length, max)
  {
    var items := Flatten(batches);
    hide Filling, Size, Flatten;
    if AllBelow(batches, length, max) {
      forall n | 0 < n <= |items|
        ensures Filling(items[..n], length, max) < max
      {
        var i := BatchOf(batches, n - 1);
        BatchIsSlice(batches, i);
        FillingIsPart(batches, length, max, i, n);
        SizeOfPart(batches[i], 0, n - Begin(batches, i), length);
        assert batches[i][0..n - Begin(batches, i)] == items[Begin(batches, i)..n];
      }
    }
    if NeverFilled(items, length, max) {
      forall i | 0 <= i < |batches|
        ensures Size(batches[i], length) < max
      {
        BatchIsSlice(batches, i);
        assert batches[i] != [];
        FillingIsPart(batches, length, max, i, Begin(batches, i + 1));
      }
    }
  }

  /** Every batch stays below the limit exactly when the running size never reaches it.
      `batches` is any sequence with the properties that BatchRequests promises. */
  lemma BelowLimit<T>(batches: seq<seq<T>>, length: T -> nat, max: int)
    requires Greedy(batches, length, max)
    requires batches != [] && batches[0] == [] ==> Flatten(batches) != [] && length(Flatten(batches)[0]) > max
    ensures AllBelow(batches, length, max) <==> NeverFilled(Flatten(batches), length, max)
  {
    var items := Flatten(batches);
    UsefulIsGreedy(batches, length, max);
    UsefulBelowLimit(Useful(batches), length, max);
    if batches != [] && batches[0] == [] {
      FillingSnoc([], items[0], length, max);
      assert items[..1] == [] + [items[0]];
      assert Filling(items[..1], length, max) > max && 0 < 1 <= |items|;
      assert AllBelow(batches, length, max) ==> AllBelow(Useful(batches), length, max);
    }
  }

  lemma FlattenOne<T>(batch: seq<T>)
    ensures Flatten([batch]) == batch
  {
    Snoc([], batch);
    assert [] + [batch] == [batch];
    assert [] + batch == batch;
  }

  lemma SizeOfTwo<T>(a: T, b: T, length: T -> nat)
    ensures Size([a, b], length) == length(a) + length(b)
  {
    SizeOfOne(a, length);
    SizeSnoc([a], b, length);
    assert [a] + [b] == [a, b];
  }

  /** Two items that add up to the limit come out as one batch, which reaches it. */
  lemma OneBatch<T>(batches: seq<seq<T>>, a: T, b: T, length: T -> nat)
    requires Greedy(batches, length, length(a) + length(b)) && Flatten(batches) == [a, b]
    requires batches != [] ==> batches[0] != []
    ensures batches == [[a, b]] && Size(batches[0], length) == length(a) + length(b)
  {
    hide Greedy, Size;
    assert batches != [] by {
      assert Flatten(batches) != [];
    }
    hide Flatten;
    FlattenOne([a, b]);
    SizeOfTwo(a, b, length);
    GreedyIsOptimal(batches, [[a, b]], length, length(a) + length(b));
    FlattenOne(batches[0]);
    assert batches == [batches[0]];
  }
}
