/** The matching walk on values: how far a loop of the engine has got in the sweep it performs.
    Each iteration of the engine's two loops is one step here, and a finished walk is the sweep. */
module Walk {
  import opened Book
  import opened Priority
  import opened BookInvariant

  // The state of a matching walk, on values, and how one meeting moves it.

  datatype Meeting = Meeting(taker: OrderView, queue: seq<OrderView>, watch: Watch, trades: seq<Trade>)

  predicate HeadMet(mode: STPMode, t: OrderView, q: seq<OrderView>, w: Watch,
                    t': OrderView, q': seq<OrderView>, w': Watch, trades: seq<Trade>, stopped: bool)
    requires q != []
  {
    if SelfTrade(mode, t, q[0]) then
      trades == [] && w' == w && stopped == (mode != CancelOldest) &&
      t' == (if stopped then t.(status := Cancelled) else t) &&
      q' == (if mode.CancelNewest? then q else q[1..])
    else
      !stopped && |trades| == 1 && Traded(t, q, w, t', q', w', trades[0])
  }

  predicate Traded(t: OrderView, q: seq<OrderView>, w: Watch,
                   t': OrderView, q': seq<OrderView>, w': Watch, trade: Trade)
    requires q != []
  {
    var amount := Min(t.Open(), q[0].Open());
    var maker := q[0].Take(amount);
    t' == t.Take(amount) &&
    q' == (if maker.filled == maker.qty then q[1..] else [maker] + q[1..]) &&
    w' == w.See(q[0].price) && trade == TradeOf(t, FillOf(q[0], amount), w.number + 1)
  }

  /** From here on the walk will do what is still missing of the whole sweep. */
  predicate Continues(mode: STPMode, start: Meeting, now: Meeting, stopped: bool) {
    var all := Sweep(mode, start.taker, start.queue);
    var rest := if stopped then Outcome(now.taker, [], [], now.queue, true)
                else Sweep(mode, now.taker, now.queue);
    all.taker == rest.taker && all.queue == rest.queue && all.stopped == rest.stopped &&
    SameDeal(start.taker, now.taker) &&
    TradesOf(start.taker, all.fills, start.watch.number) ==
      now.trades + TradesOf(start.taker, rest.fills, now.watch.number) &&
    Ripple(start.watch, all.fills) == Ripple(now.watch, rest.fills)
  }

  /** The parts of an order that its trades and its price bound depend on. */
  predicate SameDeal(a: OrderView, b: OrderView) {
    a.id == b.id && a.user == b.user && a.side == b.side && a.otype == b.otype && a.price == b.price
  }

  lemma Advance(mode: STPMode, start: Meeting, before: Meeting, after: Meeting, more: seq<Trade>, stopped: bool)
    requires Continues(mode, start, before, false)
    requires before.queue != [] && before.taker.Open() > 0.0 && Crosses(before.taker, before.queue[0].price)
    requires HeadMet(mode, before.taker, before.queue, before.watch,
                     after.taker, after.queue, after.watch, more, stopped)
    requires after.trades == before.trades + more
    ensures Continues(mode, start, after, stopped)
    ensures stopped || Left(after) < Left(before)
  {
    if SelfTrade(mode, before.taker, before.queue[0]) {
      assert before.trades + [] == before.trades;
    } else {
      AdvanceTrade(mode, start, before, after, more[0]);
    }
  }

  function Left(m: Meeting): nat {
    |m.queue| + if m.taker.Open() > 0.0 then 1 else 0
  }

  lemma AdvanceTrade(mode: STPMode, start: Meeting, before: Meeting, after: Meeting, trade: Trade)
    requires Continues(mode, start, before, false)
    requires before.queue != [] && before.taker.Open() > 0.0 && Crosses(before.taker, before.queue[0].price)
    requires !SelfTrade(mode, before.taker, before.queue[0])
    requires Traded(before.taker, before.queue, before.watch, after.taker, after.queue, after.watch, trade)
    requires after.trades == before.trades + [trade]
    ensures Continues(mode, start, after, false)
  {
    hide Crosses, SelfTrade;
    var f := FillOf(before.queue[0], Min(before.taker.Open(), before.queue[0].Open()));
    var rest := Sweep(mode, before.taker, before.queue);
    var later := Sweep(mode, after.taker, after.queue);
    assert rest.fills == [f] + later.fills && rest.fills[1..] == later.fills;
    assert TradeOf(start.taker, f, before.watch.number + 1) == trade;
    assert before.trades + ([trade] + TradesOf(start.taker, later.fills, after.watch.number)) ==
      (before.trades + [trade]) + TradesOf(start.taker, later.fills, after.watch.number);
  }

  /** The walk from `start` ends at `end`: the sweep of the level's queue. */
  predicate LevelMatched(mode: STPMode, start: Meeting, end: Meeting, stopped: bool) {
    var o := Sweep(mode, start.taker, start.queue);
    end == Meeting(o.taker, o.queue, Ripple(start.watch, o.fills),
                   TradesOf(start.taker, o.fills, start.watch.number)) &&
    stopped == o.stopped
  }

  lemma Finished(mode: STPMode, start: Meeting, end: Meeting, stopped: bool)
    requires Continues(mode, start, end, stopped)
    requires stopped || end.queue == [] || end.taker.Open() <= 0.0
    ensures LevelMatched(mode, start, end, stopped)
  {}

  // The state of the walk over a side.

  datatype Journey = Journey(taker: OrderView, levels: seq<Level>, watch: Watch, trades: seq<Trade>)

  predicate BestMatched(mode: STPMode, start: Journey, end: Journey, stopped: bool)
    requires start.levels != []
  {
    var o := Sweep(mode, start.taker, start.levels[0].orders);
    end.taker == o.taker && stopped == o.stopped &&
    end.levels == (if !o.stopped && o.queue == [] then start.levels[1..]
                   else [Level(start.levels[0].price, o.queue)] + start.levels[1..]) &&
    end.watch == Ripple(start.watch, o.fills) &&
    end.trades == TradesOf(start.taker, o.fills, start.watch.number)
  }

  /** From here on the walk will do what is still missing of the whole sweep of the side. */
  predicate ContinuesSide(mode: STPMode, start: Journey, now: Journey, stopped: bool) {
    var all := SweepLevels(mode, start.taker, start.levels);
    var rest := if stopped then LevelOutcome(now.taker, [], [], now.levels, true)
                else SweepLevels(mode, now.taker, now.levels);
    all.taker == rest.taker && all.levels == rest.levels && all.stopped == rest.stopped &&
    SameDeal(start.taker, now.taker) &&
    TradesOf(start.taker, all.fills, start.watch.number) ==
      now.trades + TradesOf(start.taker, rest.fills, now.watch.number) &&
    Ripple(start.watch, all.fills) == Ripple(now.watch, rest.fills)
  }

  predicate SideMatched(mode: STPMode, start: Journey, end: Journey, stopped: bool) {
    var o := SweepLevels(mode, start.taker, start.levels);
    end == Journey(o.taker, o.levels, Ripple(start.watch, o.fills),
                   TradesOf(start.taker, o.fills, start.watch.number)) &&
    stopped == o.stopped
  }

  lemma FinishedSide(mode: STPMode, start: Journey, end: Journey, stopped: bool)
    requires ContinuesSide(mode, start, end, stopped)
    requires stopped || end.levels == [] || end.taker.Open() <= 0.0 || !Crosses(end.taker, end.levels[0].price)
    ensures SideMatched(mode, start, end, stopped)
  {}

  /** Fills made in two parts: the trades and their effects add up. */
  lemma {:induction false} TradesConcat(t: OrderView, a: seq<Fill>, b: seq<Fill>, number: nat)
    ensures TradesOf(t, a + b, number) == TradesOf(t, a, number) + TradesOf(t, b, number + |a|)
    decreases |a|
  {
    if a == [] {
      assert a + b == b;
    } else {
      assert (a + b)[1..] == a[1..] + b;
      TradesConcat(t, a[1..], b, number + 1);
    }
  }

  lemma {:induction false} RippleConcat(w: Watch, a: seq<Fill>, b: seq<Fill>)
    ensures Ripple(w, a + b) == Ripple(Ripple(w, a), b)
    ensures Ripple(w, a).number == w.number + |a|
    decreases |a|
  {
    if a == [] {
      assert a + b == b;
    } else {
      assert (a + b)[1..] == a[1..] + b;
      RippleConcat(w.See(a[0].price), a[1..], b);
    }
  }

  lemma {:induction false} SameTrades(t: OrderView, u: OrderView, fills: seq<Fill>, number: nat)
    requires SameDeal(t, u)
    ensures TradesOf(t, fills, number) == TradesOf(u, fills, number)
    decreases |fills|
  {
    if fills != [] { SameTrades(t, u, fills[1..], number + 1); }
  }

  /** `before` carries no trades of its own; `after` carries those of the level just matched. */
  lemma AdvanceSide(mode: STPMode, start: Journey, before: Journey, trades: seq<Trade>, after: Journey, stopped: bool, side: Side)
    requires ContinuesSide(mode, start, before.(trades := trades), false)
    requires before.levels != [] && before.taker.Open() > 0.0 && Crosses(before.taker, before.levels[0].price)
    requires OrderOk(before.taker) && LevelOk(before.levels[0], side)
    requires BestMatched(mode, before, after, stopped)
    ensures ContinuesSide(mode, start, after.(trades := trades + after.trades), stopped)
    ensures OrderOk(after.taker)
    ensures stopped || |after.levels| < |before.levels| || (|after.levels| == |before.levels| && after.taker.Open() <= 0.0)
  {
    var o := Sweep(mode, before.taker, before.levels[0].orders);
    LevelLeft(mode, before.taker, before.levels[0], side);
    SweepEnds(mode, before.taker, before.levels[0].orders);
    SameTrades(start.taker, before.taker, o.fills, before.watch.number);
    if !o.stopped && o.queue == [] {
      AdvancePast(mode, start, before, trades, after);
    } else {
      if !o.stopped { assert RestingOk(o.queue[0], side, before.levels[0].price); }
      StayAt(start, before, trades, after, o.fills);
    }
  }

  lemma StayAt(start: Journey, before: Journey, trades: seq<Trade>, after: Journey, fills: seq<Fill>)
    requires after.trades == TradesOf(start.taker, fills, before.watch.number)
    requires after.watch == Ripple(before.watch, fills)
    ensures trades + TradesOf(start.taker, fills, before.watch.number) == (trades + after.trades) + TradesOf(start.taker, [], after.watch.number)
    ensures Ripple(before.watch, fills) == Ripple(after.watch, [])
  {
    assert (trades + after.trades) + [] == trades + after.trades;
  }

  lemma AdvancePast(mode: STPMode, start: Journey, before: Journey, trades: seq<Trade>, after: Journey)
    requires ContinuesSide(mode, start, before.(trades := trades), false)
    requires before.levels != [] && before.taker.Open() > 0.0 && Crosses(before.taker, before.levels[0].price)
    requires BestMatched(mode, before, after, false)
    requires Sweep(mode, before.taker, before.levels[0].orders).queue == []
    ensures ContinuesSide(mode, start, after.(trades := trades + after.trades), false)
  {
    var o := Sweep(mode, before.taker, before.levels[0].orders);
    var rest := SweepLevels(mode, o.taker, before.levels[1..]);
    SweepKeepsTerms(mode, before.taker, before.levels[0].orders);
    SameTrades(start.taker, before.taker, o.fills, before.watch.number);
    TradesConcat(start.taker, o.fills, rest.fills, before.watch.number);
    RippleConcat(before.watch, o.fills, rest.fills);
    assert trades + (after.trades + TradesOf(start.taker, rest.fills, after.watch.number)) ==
      (trades + after.trades) + TradesOf(start.taker, rest.fills, after.watch.number);
  }

  // ---------------------------------------------------------------------------
  // The fill-or-kill check, on values
  // ---------------------------------------------------------------------------

  /** Does the crossing quantity of `q` fall short of `need`, `seen` having been counted already? */
  predicate Short(t: OrderView, need: real, seen: real, q: seq<OrderView>)
    decreases |q|
  {
    q == [] || !Crosses(t, q[0].price) ||
    (seen + q[0].Open() < need && Short(t, need, seen + q[0].Open(), q[1..]))
  }

  lemma {:induction false} CrossingSum(t: OrderView, q: seq<OrderView>)
    requires AllOpen(q)
    ensures OpenSum(Crossing(t, q)) >= 0.0
    decreases |q|
  {
    if q != [] { CrossingSum(t, q[1..]); }
  }

  lemma {:induction false} ShortMeans(t: OrderView, need: real, seen: real, q: seq<OrderView>)
    requires AllOpen(q)
    ensures Short(t, need, seen, q) <==> Crossing(t, q) == [] || seen + OpenSum(Crossing(t, q)) < need
    decreases |q|
  {
    if q != [] && Crosses(t, q[0].price) {
      ShortMeans(t, need, seen + q[0].Open(), q[1..]);
      CrossingSum(t, q[1..]);
      assert Crossing(t, q)[1..] == Crossing(t, q[1..]);
      assert OpenSum([]) == 0.0;
    }
  }

  lemma ShortIsFok(t: OrderView, all: seq<Level>)
    requires SideInv(all, t.side.Opposite()) && t.tif.FOK?
    ensures FokFails(t, all) == Short(t, t.Open(), 0.0, Flat(all))
  {
    forall k | 0 <= k < |Flat(all)| ensures 0.0 <= Flat(all)[k].filled < Flat(all)[k].qty {
      FlatPrices(all, t.side.Opposite(), k);
    }
    ShortMeans(t, t.Open(), 0.0, Flat(all));
  }

  lemma ShortStep(t: OrderView, need: real, seen: real, queue: seq<OrderView>, j: nat, tail: seq<OrderView>)
    requires j < |queue| && Crosses(t, queue[j].price)
    ensures Short(t, need, seen, queue[j..] + tail) <==>
      seen + queue[j].Open() < need && Short(t, need, seen + queue[j].Open(), queue[j + 1..] + tail)
  {
    assert (queue[j..] + tail)[1..] == queue[j + 1..] + tail;
  }

  lemma LevelCrosses(t: OrderView, all: seq<Level>, i: nat)
    requires SideInv(all, t.side.Opposite()) && i < |all| && Crosses(t, all[i].price)
    ensures forall k :: 0 <= k < |all[i].orders| ==> Crosses(t, all[i].orders[k].price)
  {
    assert LevelOk(all[i], t.side.Opposite());
  }

  lemma ShortEnd(t: OrderView, need: real, seen: real, all: seq<Level>, i: nat)
    requires SideInv(all, t.side.Opposite()) && i <= |all|
    requires i < |all| ==> !Crosses(t, all[i].price)
    ensures Short(t, need, seen, Flat(all[i..]))
  {
    if i < |all| { NothingCrosses(t, all[i..]); }
  }

  // ---------------------------------------------------------------------------
  // Searching for an order to cancel, on values
  // ---------------------------------------------------------------------------

  /** A side without the order: its level shrinks, or goes if that empties it. */
  function LevelLeftOut(levels: seq<Level>, i: nat, left: seq<OrderView>): seq<Level>
    requires i < |levels|
  {
    if left == [] then Remove(levels, i) else levels[i := Level(levels[i].price, left)]
  }

  lemma LeftOutTail(levels: seq<Level>, i: nat, left: seq<OrderView>)
    requires 0 < i < |levels|
    ensures LevelLeftOut(levels, i, left) == [levels[0]] + LevelLeftOut(levels[1..], i - 1, left)
  {}

  lemma {:induction false} WithoutLevelAt(levels: seq<Level>, i: nat, id: string)
    requires i < |levels| && Has(levels[i].orders, id) && forall k :: 0 <= k < i ==> !Has(levels[k].orders, id)
    ensures HasLevel(levels, id) && WithoutLevel(levels, id) == LevelLeftOut(levels, i, Without(levels[i].orders, id))
    decreases |levels|
  {
    hide Has, Without;
    var left := Without(levels[i].orders, id);
    if i == 0 {
      assert LevelLeftOut(levels, 0, left) == if left == [] then levels[1..] else [Level(levels[0].price, left)] + levels[1..];
    } else {
      WithoutLevelAt(levels[1..], i - 1, id);
      LeftOutTail(levels, i, left);
    }
  }
}
