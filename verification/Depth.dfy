/** Market depth: the local book level by level, and its merge with an external book. */
module Depth {
  import opened Wrappers
  import opened Book
  import opened Matching

  datatype Source = Local | External

  datatype DepthLevel = DepthLevel(price: real, qty: real, source: Source)

  /** The open quantity of every level, best first. */
  function DepthOf(levels: seq<Level>): (d: seq<DepthLevel>)
    ensures |d| == |levels|
    ensures forall i :: 0 <= i < |levels| ==> d[i] == DepthLevel(levels[i].price, OpenSum(levels[i].orders), Local)
  {
    if levels == [] then [] else [DepthLevel(levels[0].price, OpenSum(levels[0].orders), Local)] + DepthOf(levels[1..])
  }

  function Take<T>(n: nat, q: seq<T>): seq<T> { if |q| <= n then q else q[..n] }

  /** Two-way merge; levels at one price stay next to each other, the local one first. */
  function Merge(side: Side, a: seq<DepthLevel>, b: seq<DepthLevel>): seq<DepthLevel>
    decreases |a| + |b|
  {
    if a == [] then b
    else if b == [] then a
    else if Better(side, a[0].price, b[0].price) then [a[0]] + Merge(side, a[1..], b)
    else if Better(side, b[0].price, a[0].price) then [b[0]] + Merge(side, a, b[1..])
    else [a[0], b[0]] + Merge(side, a[1..], b[1..])
  }

  /** Best price first; equal prices allowed. */
  predicate BestFirst(side: Side, q: seq<DepthLevel>) {
    forall i, j :: 0 <= i < j < |q| ==> !Better(side, q[j].price, q[i].price)
  }

  // ---------------------------------------------------------------------------
  // The merge is a sorted permutation
  // ---------------------------------------------------------------------------

  lemma {:induction false} MergePermutes(side: Side, a: seq<DepthLevel>, b: seq<DepthLevel>)
    ensures multiset(Merge(side, a, b)) == multiset(a) + multiset(b)
    decreases |a| + |b|
  {
    hide Better, Merge;
    if a == [] || b == [] {
      MergeRests(side, a, b);
    } else {
      MergeStep(side, a, b);
      Split(a);
      Split(b);
      if Better(side, a[0].price, b[0].price) {
        MergePermutes(side, a[1..], b);
      } else if Better(side, b[0].price, a[0].price) {
        MergePermutes(side, a, b[1..]);
      } else {
        MergePermutes(side, a[1..], b[1..]);
        assert [a[0], b[0]] == [a[0]] + [b[0]];
      }
    }
  }

  lemma Split<T>(q: seq<T>)
    requires q != []
    ensures multiset(q) == multiset{q[0]} + multiset(q[1..])
  {
    assert q == [q[0]] + q[1..];
  }

  /** Nothing in the queue is better than `p`. */
  predicate NoneBetter(side: Side, q: seq<DepthLevel>, p: real) {
    forall i :: 0 <= i < |q| ==> !Better(side, q[i].price, p)
  }

  lemma {:induction false} MergeNoneBetter(side: Side, a: seq<DepthLevel>, b: seq<DepthLevel>, p: real)
    requires NoneBetter(side, a, p) && NoneBetter(side, b, p)
    ensures NoneBetter(side, Merge(side, a, b), p)
    decreases |a| + |b|
  {
    if a != [] && b != [] {
      if Better(side, a[0].price, b[0].price) {
        MergeNoneBetter(side, a[1..], b, p);
      } else if Better(side, b[0].price, a[0].price) {
        MergeNoneBetter(side, a, b[1..], p);
      } else {
        MergeNoneBetter(side, a[1..], b[1..], p);
      }
    }
  }

  lemma PushFirst(side: Side, x: DepthLevel, q: seq<DepthLevel>)
    requires BestFirst(side, q) && NoneBetter(side, q, x.price)
    ensures BestFirst(side, [x] + q)
  {}

  lemma {:induction false} MergeSorted(side: Side, a: seq<DepthLevel>, b: seq<DepthLevel>)
    requires BestFirst(side, a) && BestFirst(side, b)
    ensures BestFirst(side, Merge(side, a, b))
    decreases |a| + |b|
  {
    if a != [] && b != [] {
      if Better(side, a[0].price, b[0].price) {
        MergeSorted(side, a[1..], b);
        MergeNoneBetter(side, a[1..], b, a[0].price);
        PushFirst(side, a[0], Merge(side, a[1..], b));
      } else if Better(side, b[0].price, a[0].price) {
        MergeSorted(side, a, b[1..]);
        MergeNoneBetter(side, a, b[1..], b[0].price);
        PushFirst(side, b[0], Merge(side, a, b[1..]));
      } else {
        var rest := Merge(side, a[1..], b[1..]);
        MergeSorted(side, a[1..], b[1..]);
        MergeNoneBetter(side, a[1..], b[1..], a[0].price);
        MergeNoneBetter(side, a[1..], b[1..], b[0].price);
        PushFirst(side, b[0], rest);
        PushFirst(side, a[0], [b[0]] + rest);
        assert [a[0]] + ([b[0]] + rest) == [a[0], b[0]] + rest;
      }
    }
  }

  // ---------------------------------------------------------------------------
  // Truncation
  // ---------------------------------------------------------------------------

  lemma TakePush<T>(n: nat, x: T, q: seq<T>)
    requires n > 0
    ensures Take(n, [x] + q) == [x] + Take(n - 1, q)
  {}

  lemma TakeNothing<T>(q: seq<T>)
    ensures Take(0, q) == []
  {}

  lemma TakeShape<T>(n: nat, q: seq<T>)
    requires n > 0 && q != []
    ensures Take(n, q) != [] && Take(n, q)[0] == q[0] && Take(n, q)[1..] == Take(n - 1, q[1..])
  {}

  /** Cutting the local side to `n` levels, or to any `m >= n`, before merging loses nothing. */
  lemma {:induction false} TruncateFirst(side: Side, a: seq<DepthLevel>, b: seq<DepthLevel>, n: nat, m: nat)
    requires n <= m
    ensures Take(n, Merge(side, Take(m, a), b)) == Take(n, Merge(side, a, b))
    decreases |a| + |b|
  {
    hide Better, Take;
    if n == 0 {
      TakeNothing(Merge(side, Take(m, a), b));
      TakeNothing(Merge(side, a, b));
    } else if a == [] {
      TakeAll(m, a);
    } else {
      TakeShape(m, a);
      var t := Take(m, a);
      if b == [] {
        TakeTwice(n, m, a);
      } else if Better(side, a[0].price, b[0].price) {
        TruncateFirst(side, a[1..], b, n - 1, m - 1);
        TakePush(n, a[0], Merge(side, a[1..], b));
        TakePush(n, a[0], Merge(side, t[1..], b));
      } else if Better(side, b[0].price, a[0].price) {
        TruncateFirst(side, a, b[1..], n - 1, m);
        TakePush(n, b[0], Merge(side, a, b[1..]));
        TakePush(n, b[0], Merge(side, t, b[1..]));
      } else {
        if n > 1 { TruncateFirst(side, a[1..], b[1..], n - 2, m - 1); }
        TakeTwo(n, a[0], b[0], Merge(side, a[1..], b[1..]));
        TakeTwo(n, a[0], b[0], Merge(side, t[1..], b[1..]));
      }
    }
  }

  lemma TakeAll<T>(n: nat, q: seq<T>)
    ensures |q| <= n ==> Take(n, q) == q
  {}

  lemma TakeTwice<T>(n: nat, m: nat, q: seq<T>)
    requires n <= m
    ensures Take(n, Take(m, q)) == Take(n, q)
  {}

  lemma TakeTwo<T>(n: nat, x: T, y: T, q: seq<T>)
    requires n > 0
    ensures Take(n, [x, y] + q) == if n == 1 then [x] else [x, y] + Take(n - 2, q)
  {}

  /** The aggregated depth of one side, as the router computes it. */
  function Aggregated(side: Side, local: seq<DepthLevel>, external: seq<DepthLevel>, n: nat): seq<DepthLevel> {
    Take(n, Merge(side, Take(n, local), external))
  }

  /** The aggregated depth is the true best `n`: for sorted inputs it is sorted, it holds `n` levels or
      all there are, and every level left out, local or external, is no better than any level shown. */
  lemma AggregatedIsBest(side: Side, local: seq<DepthLevel>, external: seq<DepthLevel>, n: nat)
    returns (rest: seq<DepthLevel>)
    requires BestFirst(side, local) && BestFirst(side, external)
    ensures
      var shown := Aggregated(side, local, external, n);
      BestFirst(side, shown) && multiset(shown) + multiset(rest) == multiset(local) + multiset(external) &&
      (|shown| == n || rest == []) && |shown| <= n &&
      forall i, k :: 0 <= i < |shown| && 0 <= k < |rest| ==> !Better(side, rest[k].price, shown[i].price)
  {
    var all := Merge(side, local, external);
    TruncateFirst(side, local, external, n, n);
    MergePermutes(side, local, external);
    MergeSorted(side, local, external);
    rest := if |all| <= n then [] else all[n..];
    assert all == Take(n, all) + rest;
  }

  /** A well-formed side of the book shows its depth best first. */
  lemma DepthIsSorted(levels: seq<Level>, side: Side)
    requires SideInv(levels, side)
    ensures BestFirst(side, DepthOf(levels))
  {}

  // ---------------------------------------------------------------------------
  // Levels at one price
  // ---------------------------------------------------------------------------

  /** Everything in the queue is worse than `p`. */
  predicate Worse(side: Side, p: real, q: seq<DepthLevel>) {
    forall i :: 0 <= i < |q| ==> Better(side, p, q[i].price)
  }

  /** Levels of one source, each at a price of its own, best first. */
  predicate Ladder(side: Side, q: seq<DepthLevel>, source: Source) {
    (forall i :: 0 <= i < |q| ==> q[i].source == source) && forall i, j :: 0 <= i < j < |q| ==> Better(side, q[i].price, q[j].price)
  }

  /** Best first; two levels at one price are a local one and an external one behind it. */
  predicate LocalAhead(side: Side, q: seq<DepthLevel>) {
    forall i, j :: 0 <= i < j < |q| ==>
      Better(side, q[i].price, q[j].price) || (q[i].price == q[j].price && q[i].source == Local && q[j].source == External)
  }

  lemma {:induction false} MergeWorse(side: Side, p: real, a: seq<DepthLevel>, b: seq<DepthLevel>)
    requires Worse(side, p, a) && Worse(side, p, b)
    ensures Worse(side, p, Merge(side, a, b))
    decreases |a| + |b|
  {
    if a != [] && b != [] {
      if Better(side, a[0].price, b[0].price) {
        MergeWorse(side, p, a[1..], b);
      } else if Better(side, b[0].price, a[0].price) {
        MergeWorse(side, p, a, b[1..]);
      } else {
        MergeWorse(side, p, a[1..], b[1..]);
      }
    }
  }

  lemma AheadPush(side: Side, x: DepthLevel, q: seq<DepthLevel>)
    requires LocalAhead(side, q) && Worse(side, x.price, q)
    ensures LocalAhead(side, [x] + q)
  {}

  /** In the merge of a local and an external side the local level stands ahead at every shared price. */
  lemma {:induction false} LocalFirst(side: Side, a: seq<DepthLevel>, b: seq<DepthLevel>)
    requires Ladder(side, a, Local) && Ladder(side, b, External)
    ensures LocalAhead(side, Merge(side, a, b))
    decreases |a| + |b|
  {
    if a != [] && b != [] {
      if Better(side, a[0].price, b[0].price) {
        LocalFirst(side, a[1..], b);
        MergeWorse(side, a[0].price, a[1..], b);
        AheadPush(side, a[0], Merge(side, a[1..], b));
      } else if Better(side, b[0].price, a[0].price) {
        LocalFirst(side, a, b[1..]);
        MergeWorse(side, b[0].price, a, b[1..]);
        AheadPush(side, b[0], Merge(side, a, b[1..]));
      } else {
        var rest := Merge(side, a[1..], b[1..]);
        LocalFirst(side, a[1..], b[1..]);
        MergeWorse(side, a[0].price, a[1..], b[1..]);
        AheadPush(side, b[0], rest);
        assert [a[0]] + ([b[0]] + rest) == [a[0], b[0]] + rest;
      }
    }
  }

  // ---------------------------------------------------------------------------
  // The loops
  // ---------------------------------------------------------------------------

  /** The first levels of a side, each with the open quantity of its orders. */
  method GetL2Depth(limits: seq<MatchLimit>, maxLevels: nat) returns (depth: seq<DepthLevel>)
    ensures depth == Take(maxLevels, DepthOf(Levels(limits)))
  {
    hide Views, Levels, OpenSum, DepthOf;
    ghost var ls := Levels(limits);
    ghost var full := DepthOf(ls);
    depth := [];
    var i := 0;
    while i < |limits| && i < maxLevels
      invariant 0 <= i <= |limits| && i <= maxLevels
      invariant Levels(limits) == ls
      invariant depth == full[..i]
    {
      assert forall o :: o in OrdersOf(limits) ==> allocated(o);
      assert ls[i] == LevelView(limits[i]);
      var qty := OpenQuantity(limits[i].orders);
      assert full[i] == DepthLevel(limits[i].price, qty, Local);
      depth := depth + [DepthLevel(limits[i].price, qty, Local)];
      i := i + 1;
    }
  }

  method OpenQuantity(orders: seq<Order>) returns (qty: real)
    ensures qty == OpenSum(Views(orders))
  {
    qty := 0.0;
    ghost var vs := Views(orders);
    assert vs[0..] == vs;
    for k := 0 to |orders|
      invariant qty + OpenSum(vs[k..]) == OpenSum(vs)
    {
      assert vs[k..][0] == orders[k].View() && vs[k..][1..] == vs[k + 1..];
      qty := qty + (orders[k].qty - orders[k].filled);
    }
  }

  /** The two-index loop over both sorted sides, and the rests. */
  method MergeSides(side: Side, local: seq<DepthLevel>, external: seq<DepthLevel>) returns (merged: seq<DepthLevel>)
    ensures merged == Merge(side, local, external)
  {
    hide Better, Merge;
    merged := [];
    var i, j := 0, 0;
    assert local[0..] == local && external[0..] == external;
    while i < |local| && j < |external|
      invariant 0 <= i <= |local| && 0 <= j <= |external|
      invariant merged + Merge(side, local[i..], external[j..]) == Merge(side, local, external)
      decreases |local| - i + |external| - j
    {
      MergeStep(side, local[i..], external[j..]);
      assert local[i..][1..] == local[i + 1..] && external[j..][1..] == external[j + 1..];
      if Better(side, local[i].price, external[j].price) {
        Regroup(merged, [local[i]], Merge(side, local[i + 1..], external[j..]));
        merged := merged + [local[i]];
        i := i + 1;
      } else if Better(side, external[j].price, local[i].price) {
        Regroup(merged, [external[j]], Merge(side, local[i..], external[j + 1..]));
        merged := merged + [external[j]];
        j := j + 1;
      } else {
        Regroup(merged, [local[i], external[j]], Merge(side, local[i + 1..], external[j + 1..]));
        merged := merged + [local[i], external[j]];
        i, j := i + 1, j + 1;
      }
    }
    MergeRests(side, local[i..], external[j..]);
    Regroup(merged, local[i..], external[j..]);
    merged := merged + local[i..] + external[j..];
  }

  lemma Regroup<T>(a: seq<T>, b: seq<T>, c: seq<T>)
    ensures a + (b + c) == (a + b) + c
  {}

  lemma MergeStep(side: Side, a: seq<DepthLevel>, b: seq<DepthLevel>)
    requires a != [] && b != []
    ensures Merge(side, a, b) ==
      if Better(side, a[0].price, b[0].price) then [a[0]] + Merge(side, a[1..], b)
      else if Better(side, b[0].price, a[0].price) then [b[0]] + Merge(side, a, b[1..])
      else [a[0], b[0]] + Merge(side, a[1..], b[1..])
  {}

  lemma MergeRests(side: Side, a: seq<DepthLevel>, b: seq<DepthLevel>)
    requires a == [] || b == []
    ensures Merge(side, a, b) == a + b
  {}

  /** One side of the depth shown to clients; without an external book it is the local depth. */
  method AggregateSide(side: Side, limits: seq<MatchLimit>, external: Option<seq<DepthLevel>>, maxLevels: nat)
    returns (depth: seq<DepthLevel>)
    ensures depth == if external.None? then Take(maxLevels, DepthOf(Levels(limits)))
                     else Aggregated(side, DepthOf(Levels(limits)), external.value, maxLevels)
  {
    hide Levels, Views, DepthOf, Merge;
    ghost var full := DepthOf(Levels(limits));
    assert forall o :: o in OrdersOf(limits) ==> allocated(o);
    depth := GetL2Depth(limits, maxLevels);
    if external.Some? {
      depth := MergeSides(side, depth, external.value);
      if |depth| > maxLevels {
        depth := depth[..maxLevels];
      }
    }
  }
}
