/** Every operation of the book, said on its two flat price-time queues. */
module BookQueues {
  import opened Book
  import opened Priority
  import opened BookInvariant
  import opened Modifiers

  lemma {:induction false} FlatWithout(levels: seq<Level>, id: string)
    ensures HasLevel(levels, id) <==> Has(Flat(levels), id)
    ensures HasLevel(levels, id) ==> Flat(WithoutLevel(levels, id)) == Without(Flat(levels), id)
    decreases |levels|
  {
    if levels != [] {
      var a, b := levels[0].orders, Flat(levels[1..]);
      FlatWithout(levels[1..], id);
      HasConcat(a, b, id);
      WithoutConcat(a, b, id);
      HasLevelTail(levels, id);
      if Has(a, id) {
        var q := Without(a, id);
        if q == [] {
          assert [] + b == b;
        } else {
          assert ([Level(levels[0].price, q)] + levels[1..])[1..] == levels[1..];
        }
      } else {
        assert ([levels[0]] + WithoutLevel(levels[1..], id))[1..] == WithoutLevel(levels[1..], id);
      }
    }
  }

  lemma HasLevelTail(levels: seq<Level>, id: string)
    requires levels != []
    ensures HasLevel(levels, id) <==> Has(levels[0].orders, id) || HasLevel(levels[1..], id)
  {
    if HasLevel(levels, id) && !Has(levels[0].orders, id) {
      var i :| 0 <= i < |levels| && Has(levels[i].orders, id);
      assert levels[1..][i - 1] == levels[i];
    }
    if HasLevel(levels[1..], id) {
      var i :| 0 <= i < |levels[1..]| && Has(levels[1..][i].orders, id);
      assert levels[1..][i] == levels[i + 1];
    }
  }

  lemma HasConcat(a: seq<OrderView>, b: seq<OrderView>, id: string)
    ensures Has(a + b, id) <==> Has(a, id) || Has(b, id)
  {
    if Has(a, id) {
      var i :| 0 <= i < |a| && a[i].id == id;
      assert (a + b)[i].id == id;
    }
    if Has(b, id) {
      var i :| 0 <= i < |b| && b[i].id == id;
      assert (a + b)[|a| + i].id == id;
    }
    if Has(a + b, id) {
      var i :| 0 <= i < |a + b| && (a + b)[i].id == id;
      assert if i < |a| then a[i].id == id else b[i - |a|].id == id;
    }
  }

  lemma {:induction false} WithoutConcat(a: seq<OrderView>, b: seq<OrderView>, id: string)
    ensures Without(a + b, id) == if Has(a, id) then Without(a, id) + b else a + Without(b, id)
    decreases |a|
  {
    if a == [] {
      assert a + b == b;
    } else {
      assert (a + b)[1..] == a[1..] + b;
      if a[0].id != id {
        WithoutConcat(a[1..], b, id);
        HasTail(a, id);
        hide Has;
        assert Without(a + b, id) == [a[0]] + Without(a[1..] + b, id) && Without(a, id) == [a[0]] + Without(a[1..], id);
        hide Without;
        PushConcat(a[0], Without(a[1..], id), b);
        PushConcat(a[0], a[1..], Without(b, id));
      } else {
        assert Has(a, id);
      }
    }
  }

  lemma HasTail(q: seq<OrderView>, id: string)
    requires q != [] && q[0].id != id
    ensures Has(q, id) <==> Has(q[1..], id)
  {
    HasConcat([q[0]], q[1..], id);
    assert [q[0]] + q[1..] == q;
  }

  // ---------------------------------------------------------------------------
  // Properties that orders carry through every operation
  // ---------------------------------------------------------------------------

  /** What never changes about an order, whatever is traded and triggered. */
  predicate SameIdentity(a: OrderView, b: OrderView) {
    a.(otype := b.otype, filled := b.filled, status := b.status) == b
  }

  ghost predicate Carried(p: OrderView -> bool) {
    forall a, b :: SameIdentity(a, b) && p(a) ==> p(b)
  }

  predicate All(q: seq<OrderView>, p: OrderView -> bool) {
    forall i :: 0 <= i < |q| ==> p(q[i])
  }

  /** The three ways the head of a queue can leave a sweep that does not go on behind it. */
  lemma SweepShape(mode: STPMode, t: OrderView, q: seq<OrderView>)
    requires q != []
    ensures
      var head, next := HeadAfter(mode, t, q[0]), NextTaker(mode, t, q[0]);
      var queue := Sweep(mode, t, q).queue;
      if Steps(mode, t, q, head, next) then queue == Sweep(mode, next, q[1..]).queue
      else queue == q || queue == q[1..] || queue == [head] + q[1..]
  {}

  lemma HeadCarries(mode: STPMode, t: OrderView, r: OrderView)
    ensures SameIdentity(r, HeadAfter(mode, t, r))
  {}

  lemma {:induction false} SweepCarries(mode: STPMode, t: OrderView, q: seq<OrderView>, p: OrderView -> bool)
    requires Carried(p) && All(q, p)
    ensures All(Sweep(mode, t, q).queue, p)
    decreases |q|
  {
    hide Sweep, SameIdentity, Steps, HeadAfter, NextTaker;
    if q == [] {
      SweepNothing(mode, t);
    } else {
      SweepShape(mode, t, q);
      HeadCarries(mode, t, q[0]);
      assert All(q[1..], p);
      SweepCarries(mode, NextTaker(mode, t, q[0]), q[1..], p);
    }
  }

  lemma SweepNothing(mode: STPMode, t: OrderView)
    ensures Sweep(mode, t, []) == Outcome(t, [], [], [], false)
  {}

  lemma {:induction false} WithoutCarries(q: seq<OrderView>, id: string, p: OrderView -> bool)
    requires All(q, p)
    ensures All(Without(q, id), p)
    decreases |q|
  {
    if q != [] { WithoutCarries(q[1..], id, p); }
  }

  lemma {:induction false} StopsCarry(stops: seq<OrderView>, price: real, p: OrderView -> bool)
    requires Carried(p) && All(stops, p)
    ensures All(Kept(stops, price), p) && All(Fired(stops, price), p)
    decreases |stops|
  {
    if stops != [] {
      assert SameIdentity(stops[0], stops[0].(otype := Limit));
      StopsCarry(stops[1..], price, p);
    }
  }

  lemma {:induction false} RippleCarries(w: Watch, fills: seq<Fill>, p: OrderView -> bool)
    requires Carried(p) && All(w.stops, p) && All(w.pending, p)
    ensures All(Ripple(w, fills).stops, p) && All(Ripple(w, fills).pending, p)
    decreases |fills|
  {
    if fills != [] {
      StopsCarry(w.stops, fills[0].price, p);
      RippleCarries(w.See(fills[0].price), fills[1..], p);
    }
  }

  /** Every order of the book, resting, armed or pending. */
  predicate Everywhere(b: BookView, p: OrderView -> bool) {
    All(b.Queue(Buy), p) && All(b.Queue(Sell), p) && All(b.watch.stops, p) && All(b.watch.pending, p)
  }

  lemma RestCarries(b: BookView, o: OrderView, p: OrderView -> bool)
    requires SideInv(b.On(o.side), o.side) && All(b.Queue(o.side), p) && p(o)
    ensures All(Rest(b, o).Queue(o.side), p)
  {
    var ahead, behind := InsertPriority(b.On(o.side), o, o.side);
    forall i | 0 <= i < |ahead + [o] + behind| ensures p((ahead + [o] + behind)[i]) {
      if i < |ahead| {
        assert (ahead + behind)[i] == ahead[i];
      } else if i > |ahead| {
        assert (ahead + behind)[i - 1] == behind[i - 1 - |ahead|];
      }
    }
  }

  /** The book after a match, side by side. */
  lemma MatchQueues(b: BookView, o: OrderView)
    requires BookInv(b) && OrderOk(o) && !Refused(b, o)
    ensures
      var x := Sweep(b.mode, o, b.Queue(o.side.Opposite()));
      var m := Match(b, o);
      m.book.Queue(o.side.Opposite()) == x.queue && m.book.mode == b.mode &&
      m.book.watch.stops == Ripple(b.watch, x.fills).stops && m.book.watch.pending == Ripple(b.watch, x.fills).pending &&
      m.trades == TradesOf(o, x.fills, b.watch.number) && SameTerms(o, m.order) && m.order.filled == x.taker.filled &&
      if !x.stopped && x.taker.Open() > 0.0 && !o.tif.IOC? && o.otype.Limit?
      then m.book.On(o.side) == Insert(b.On(o.side), m.order, o.side) && RestingOk(m.order, o.side, o.price)
      else m.book.On(o.side) == b.On(o.side)
  {
    hide Refused, Sweep, SweepLevels, Insert, Ripple, TradesOf, SideInv, Flat;
    LevelsRefineQueue(b.mode, o, b.On(o.side.Opposite()));
    SweptSide(b.mode, o, b.On(o.side.Opposite()));
  }

  lemma MatchCarries(b: BookView, o: OrderView, p: OrderView -> bool)
    requires BookInv(b) && OrderOk(o) && Carried(p) && Everywhere(b, p) && p(o)
    ensures Everywhere(Match(b, o).book, p)
  {
    hide Match, Refused, Sweep, Ripple, Insert, Flat;
    if Refused(b, o) {
      RefusedMatch(b, o);
    } else {
      var x := Sweep(b.mode, o, b.Queue(o.side.Opposite()));
      MatchQueues(b, o);
      SweepCarries(b.mode, o, b.Queue(o.side.Opposite()), p);
      RippleCarries(b.watch, x.fills, p);
      assert SameIdentity(o, Match(b, o).order);
      RestCarries(b, Match(b, o).order, p);
      RestQueue(b, Match(b, o).order);
      assert All(Match(b, o).book.Queue(o.side), p);
      assert All(Match(b, o).book.Queue(o.side.Opposite()), p);
    }
  }

  lemma RestQueue(b: BookView, o: OrderView)
    ensures Rest(b, o).On(o.side) == Insert(b.On(o.side), o, o.side)
  {}

  lemma CancelCarries(b: BookView, id: string, p: OrderView -> bool)
    requires Everywhere(b, p)
    ensures Everywhere(Cancel(b, id).0, p)
  {
    FlatWithout(b.bids, id);
    FlatWithout(b.asks, id);
    WithoutCarries(b.watch.stops, id, p);
    WithoutCarries(b.Queue(Buy), id, p);
    WithoutCarries(b.Queue(Sell), id, p);
  }

  // ---------------------------------------------------------------------------
  // Fill-or-kill orders that come to rest
  // ---------------------------------------------------------------------------

  /** A sweep that is not stopped has found the order complete, or nothing but eligible orders, unless
      it cancels the own orders in its way. */
  lemma {:induction false} SweepUnstopped(mode: STPMode, t: OrderView, q: seq<OrderView>)
    requires AllOpen(q)
    ensures
      var x := Sweep(mode, t, q);
      (mode.CancelOldest? || mode.Allow? ==> !x.stopped) &&
      (!x.stopped && x.taker.Open() > 0.0 && !mode.CancelOldest? ==> Eligible(mode, t, q) == Crossing(t, q))
    decreases |q|
  {
    if q != [] && t.Open() > 0.0 && Crosses(t, q[0].price) {
      assert AllOpen(q[1..]);
      var head, next := HeadAfter(mode, t, q[0]), NextTaker(mode, t, q[0]);
      SweepUnstopped(mode, next, q[1..]);
      SameEligible(mode, t, next, q[1..]);
    }
  }

  lemma InsertDiffers(levels: seq<Level>, o: OrderView, side: Side)
    requires SideInv(levels, side)
    ensures Insert(levels, o, side) != levels
  {
    hide Insert, SideInv;
    var ahead, behind := InsertPriority(levels, o, side);
    assert |Flat(Insert(levels, o, side))| == |Flat(levels)| + 1;
  }

  /** A priced fill-or-kill order comes to rest exactly when self-trade prevention cancels the user's own
      resting orders, these are among the crossing quantity that let it pass, and what is left does not
      suffice. */
  lemma FillOrKillRestsIff(b: BookView, o: OrderView)
    requires BookInv(b) && PricedFok(o)
    ensures
      var crossing := OpenSum(Crossing(o, b.Queue(o.side.Opposite())));
      var eligible := OpenSum(Eligible(b.mode, o, b.Queue(o.side.Opposite())));
      Match(b, o).book.On(o.side) != b.On(o.side) <==> b.mode.CancelOldest? && crossing >= o.Open() > eligible
  {
    hide Match, Refused, Sweep, BookInv, Flat, Insert, Eligible, Crossing, OpenSum, Ripple, TradesOf;
    var q := b.Queue(o.side.Opposite());
    FokRefused(b, o);
    if Refused(b, o) {
      RefusedMatch(b, o);
    } else {
      MatchQueues(b, o);
      QueueOpen(b, o.side.Opposite());
      FilledIsMin(b.mode, o, q);
      SweepUnstopped(b.mode, o, q);
      SweepKeepsTerms(b.mode, o, q);
      SidesSound(b);
      InsertDiffers(b.On(o.side), Match(b, o).order, o.side);
    }
  }

  lemma SidesSound(b: BookView)
    requires BookInv(b)
    ensures SideInv(b.On(Buy), Buy) && SideInv(b.On(Sell), Sell)
  {}

  /** The book that cuts such an order short lets it rest when the own order is cancelled instead. */
  lemma FillOrKillRests(b: BookView, o: OrderView)
    requires b == BookView(CancelOldest, [], [Level(10.0, [AskOf("bob", "s1"), AskOf("ann", "s2")])], Watch([], [], 0.0, 0))
    requires o == OrderView("b1", "ann", Buy, Limit, 10.0, 2.0, 0.0, New, FOK, false)
    ensures BookInv(b) && PricedFok(o) && Match(b, o).book.bids != [] && Match(b, o).order.filled == 1.0
  {
    hide Match;
    assert LevelOk(b.asks[0], Sell);
    assert Flat(b.asks[1..]) == [];
    var q := b.asks[0].orders;
    assert b.Queue(Sell) == q;
    CutShortSums(o, q);
    assert Crossing(o, q) == q by { assert q[1..] == [q[1]] && q[1..][1..] == []; }
    assert Others("ann", q) == [q[0]] by { assert q[1..] == [q[1]] && q[1..][1..] == []; }
    assert OpenSum([q[0]]) == 1.0 by { assert [q[0]][1..] == []; }
    FillOrKillRestsIff(b, o);
    FilledFor(b, o);
  }

  lemma FilledFor(b: BookView, o: OrderView)
    requires BookInv(b) && PricedFok(o) && !Refused(b, o)
    ensures Match(b, o).order.filled == o.filled + Min(o.Open(), OpenSum(Eligible(b.mode, o, b.Queue(o.side.Opposite()))))
  {
    hide Match, Refused, BookInv;
    MatchIsGreedy(b, o);
  }

  // ---------------------------------------------------------------------------
  // Post-only orders
  // ---------------------------------------------------------------------------

  /** A post-only order that is not fill-or-kill is refused exactly when the best opposite level is at a price
      it would trade at, and in a book without empty levels exactly when an order rests at such a price. */
  lemma PostOnlyRefusedIff(b: BookView, o: OrderView)
    requires BookInv(b) && o.postOnly && !o.tif.FOK?
    ensures
      var levels, q := b.On(o.side.Opposite()), b.Queue(o.side.Opposite());
      (Refused(b, o) <==> levels != [] && if o.side.Buy? then levels[0].price <= o.price else levels[0].price >= o.price) &&
      (NoEmpty(b) ==> (Refused(b, o) <==>
        exists i :: 0 <= i < |q| && if o.side.Buy? then q[i].price <= o.price else q[i].price >= o.price))
  {
    var levels, q, side := b.On(o.side.Opposite()), b.Queue(o.side.Opposite()), o.side.Opposite();
    if i :| 0 <= i < |q| && if o.side.Buy? then q[i].price <= o.price else q[i].price >= o.price {
      FlatPrices(levels, side, i);
    }
    if NoEmpty(b) && levels != [] {
      assert levels[0].orders != [] && q[0] == levels[0].orders[0];
      assert RestingOk(levels[0].orders[0], side, levels[0].price);
    }
  }

  /** An accepted post-only limit order with something open comes to rest, whole. */
  lemma PostOnlyRests(b: BookView, o: OrderView)
    requires BookInv(b) && OrderOk(o) && o.filled < o.qty && o.postOnly && o.otype.Limit? && !o.tif.IOC? && !Refused(b, o)
    ensures
      var m := Match(b, o);
      m.trades == [] && m.order == o && m.book.On(o.side) == Insert(b.On(o.side), o, o.side)
  {
    hide Insert, Ripple;
  }

  /** A level emptied by cancelling both orders still refuses: after it a post-only buy at its price is turned
      away from a book on which nothing rests. */
  lemma EmptyLevelRefuses(b: BookView, own: OrderView, o: OrderView)
    requires b == BookView(CancelBoth, [], [Level(10.0, [AskOf("ann", "s1")])], Watch([], [], 0.0, 0))
    requires own == OrderView("b1", "ann", Buy, Limit, 10.0, 1.0, 0.0, New, GTC, false)
    requires o == OrderView("b2", "bob", Buy, Limit, 10.0, 1.0, 0.0, New, GTC, true)
    ensures
      var after := Match(b, own).book;
      after.Queue(Buy) == [] && after.Queue(Sell) == [] && Refused(after, o)
  {
    var q := b.asks[0].orders;
    assert b.asks[1..] == [] && q[1..] == [];
    assert Sweep(b.mode, own, q) == Outcome(own.(status := Cancelled), [], [q[0].(status := Cancelled)], [], true);
    assert SweepLevels(b.mode, own, b.asks).levels == [Level(10.0, [])] + b.asks[1..] == [Level(10.0, [])];
    assert Match(b, own).book == b.(asks := [Level(10.0, [])]);
    assert Flat([Level(10.0, [])]) == [] + Flat([]) by { assert [Level(10.0, [])][1..] == []; }
  }

  // ---------------------------------------------------------------------------
  // Refusal
  // ---------------------------------------------------------------------------

  /** Is a price no worse for an order than its own? */
  predicate Suits(o: OrderView, price: real) { if o.side.Buy? then price <= o.price else price >= o.price }

  /** What is offered to an order at prices that suit it. */
  function Offer(o: OrderView, q: seq<OrderView>): real {
    if q == [] then 0.0 else (if Suits(o, q[0].price) then q[0].qty - q[0].filled else 0.0) + Offer(o, q[1..])
  }

  predicate SomeSuits(o: OrderView, q: seq<OrderView>) { exists i :: 0 <= i < |q| && Suits(o, q[i].price) }

  lemma {:induction false} AllSuit(o: OrderView, a: seq<OrderView>, b: seq<OrderView>)
    requires o.otype.Limit? && forall i :: 0 <= i < |a| ==> Suits(o, a[i].price)
    ensures Crossing(o, a + b) == a + Crossing(o, b)
    ensures Offer(o, a + b) == OpenSum(a) + Offer(o, b)
    ensures OpenSum(a + Crossing(o, b)) == OpenSum(a) + OpenSum(Crossing(o, b))
    decreases |a|
  {
    if a == [] {
      assert a + b == b && a + Crossing(o, b) == Crossing(o, b);
    } else {
      assert (a + b)[1..] == a[1..] + b && (a + Crossing(o, b))[1..] == a[1..] + Crossing(o, b);
      AllSuit(o, a[1..], b);
      assert [a[0]] + (a[1..] + Crossing(o, b)) == a + Crossing(o, b);
    }
  }

  lemma {:induction false} NoneSuits(o: OrderView, q: seq<OrderView>)
    requires o.otype.Limit? && forall i :: 0 <= i < |q| ==> !Suits(o, q[i].price)
    ensures Crossing(o, q) == [] && Offer(o, q) == 0.0
    decreases |q|
  {
    if q != [] { NoneSuits(o, q[1..]); }
  }

  /** In price order, the crossing prefix is all that suits. */
  lemma {:induction false} CrossingSuits(o: OrderView, levels: seq<Level>)
    requires SideInv(levels, o.side.Opposite()) && o.otype.Limit?
    ensures OpenSum(Crossing(o, Flat(levels))) == Offer(o, Flat(levels))
    ensures Crossing(o, Flat(levels)) == [] <==> !SomeSuits(o, Flat(levels))
    decreases |levels|
  {
    if levels != [] {
      var q, rest := levels[0].orders, Flat(levels[1..]);
      if Crosses(o, levels[0].price) {
        forall i | 0 <= i < |q| ensures Suits(o, q[i].price) { assert RestingOk(q[i], o.side.Opposite(), levels[0].price); }
        TailInv(levels, o.side.Opposite());
        CrossingSuits(o, levels[1..]);
        AllSuit(o, q, rest);
        if q != [] {
          assert Suits(o, Flat(levels)[0].price);
        } else {
          assert q + rest == rest;
        }
      } else {
        NothingCrosses(o, levels);
        forall k | 0 <= k < |Flat(levels)| ensures !Suits(o, Flat(levels)[k].price) {}
        NoneSuits(o, Flat(levels));
      }
    }
  }

  /** An order is refused in exactly two cases: it is a fill-or-kill limit order with a price and less than it
      asks is offered at prices that suit it, or nothing at all; or it is post-only and the best opposite price
      suits it. */
  lemma RefusedIff(b: BookView, o: OrderView)
    requires BookInv(b)
    ensures
      var levels, q := b.On(o.side.Opposite()), b.Queue(o.side.Opposite());
      Refused(b, o) <==>
        (o.otype == Limit && o.tif == FOK && o.price > 0.0 && (Offer(o, q) < o.qty - o.filled || !SomeSuits(o, q))) ||
        (o.postOnly && levels != [] && Suits(o, levels[0].price))
  {
    hide Offer, SomeSuits, Crossing, OpenSum;
    if o.otype.Limit? { CrossingSuits(o, b.On(o.side.Opposite())); }
  }

  // ---------------------------------------------------------------------------
  // How an order ends
  // ---------------------------------------------------------------------------

  lemma {:induction false} SweepMarks(mode: STPMode, t: OrderView, q: seq<OrderView>)
    requires AllOpen(q)
    ensures
      var o := Sweep(mode, t, q);
      !o.stopped ==> o.taker.status == if o.fills == [] then t.status else if o.taker.filled == t.qty then Filled else PartiallyFilled
    decreases |q|
  {
    if q != [] {
      assert AllOpen(q[1..]);
      var head, next := HeadAfter(mode, t, q[0]), NextTaker(mode, t, q[0]);
      if Steps(mode, t, q, head, next) {
        SweepMarks(mode, next, q[1..]);
        SweepFilled(mode, next, q[1..]);
        StepFills(mode, t, q, head, next);
      }
    }
  }

  /** Is an order stopped by one of its user's own, which it meets with something still open? */
  predicate MeetsOwn(mode: STPMode, o: OrderView, q: seq<OrderView>) {
    mode in {CancelNewest, CancelBoth} && o.user in (set i | 0 <= i < |Crossing(o, q)| :: Crossing(o, q)[i].user) &&
    OpenSum(BeforeOwn(o.user, Crossing(o, q))) < o.Open()
  }

  lemma {:induction false} OwnThere(user: string, q: seq<OrderView>)
    ensures |BeforeOwn(user, q)| < |q| <==> user in (set i | 0 <= i < |q| :: q[i].user)
    decreases |q|
  {
    if q != [] {
      OwnThere(user, q[1..]);
      if user in (set i | 0 <= i < |q[1..]| :: q[1..][i].user) {
        var i :| 0 <= i < |q[1..]| && q[1..][i].user == user;
        assert q[i + 1].user == user;
      }
      if user in (set i | 0 <= i < |q| :: q[i].user) && q[0].user != user {
        var i :| 0 <= i < |q| && q[i].user == user;
        assert q[1..][i - 1].user == user;
      }
    }
  }

  /** How an accepted order ends: filled; cancelled, because it met an own order in a mode that cancels it or
      is immediate-or-cancel; or open, and then a limit order rests and a market order is dropped. */
  lemma OrderEnds(b: BookView, o: OrderView)
    requires BookInv(b) && OrderOk(o) && o.filled < o.qty && o.status.New? && !Refused(b, o)
    ensures
      var m, met := Match(b, o), MeetsOwn(b.mode, o, b.Queue(o.side.Opposite()));
      m.order.status ==
        (if m.order.filled == o.qty then Filled else if met || o.tif == IOC then Cancelled
         else if m.trades == [] then New else PartiallyFilled) &&
      m.book.On(o.side) ==
        if m.order.filled < o.qty && !met && o.tif != IOC && o.otype == Limit then Insert(b.On(o.side), m.order, o.side) else b.On(o.side)
  {
    var q := b.Queue(o.side.Opposite());
    MatchQueues(b, o);
    MatchOnQueue(b, o);
    QueueOpen(b, o.side.Opposite());
    SweepStops(b.mode, o, q);
    SweepMarks(b.mode, o, q);
    SweepStatus(b.mode, o, q);
    SweepKeepsTerms(b.mode, o, q);
    SweepBounded(b.mode, o, q);
    OwnThere(o.user, Crossing(o, q));
    hide Match, Refused, Sweep, Insert, Crossing, BeforeOwn, OpenSum, Ripple, BookInv, Flat;
  }

  lemma SweepBounded(mode: STPMode, t: OrderView, q: seq<OrderView>)
    requires AllOpen(q) && OrderOk(t)
    ensures Sweep(mode, t, q).taker.filled <= t.qty
  {
    FilledIsMin(mode, t, q);
  }

  /** The sequence number counts trades, orders that come to rest, and cancellations; the last price is the
      last trade's. */
  lemma SequenceMoves(b: BookView, o: OrderView)
    requires BookInv(b) && OrderOk(o)
    ensures
      var m := Match(b, o);
      m.book.watch.number == b.watch.number + |m.trades| + (if m.book.On(o.side) == b.On(o.side) then 0 else 1) &&
      m.book.watch.last == if m.trades == [] then b.watch.last else m.trades[|m.trades| - 1].price
  {
    if Refused(b, o) {
      RefusedMatch(b, o);
    } else {
      var s := SweepLevels(b.mode, o, b.On(o.side.Opposite()));
      SweepLevelsTerms(b, o);
      RippleCounts(b.watch, s.fills);
      if s.fills != [] { LastIsLastFill(b.watch, s.fills); }
      TradesMirrorFills(o, s.fills, b.watch.number);
      InsertDiffers(b.On(o.side), s.taker, o.side);
      hide Refused, SweepLevels, Insert, Ripple, TradesOf, BookInv;
    }
  }

  lemma SweepLevelsTerms(b: BookView, o: OrderView)
    requires BookInv(b)
    ensures SameTerms(SweepLevels(b.mode, o, b.On(o.side.Opposite())).taker, o)
  {
    LevelsRefineQueue(b.mode, o, b.On(o.side.Opposite()));
    SweepKeepsTerms(b.mode, o, b.Queue(o.side.Opposite()));
  }

  lemma {:induction false} RippleCounts(w: Watch, fills: seq<Fill>)
    ensures Ripple(w, fills).number == w.number + |fills|
    decreases |fills|
  {
    if fills != [] { RippleCounts(w.See(fills[0].price), fills[1..]); }
  }

  // ---------------------------------------------------------------------------
  // What a cancel takes
  // ---------------------------------------------------------------------------

  /** `after` is `q` without its first order named `id`. */
  predicate TakenOut(q: seq<OrderView>, id: string, after: seq<OrderView>) {
    exists k :: 0 <= k < |q| && q[k].id == id && (forall j :: 0 <= j < k ==> q[j].id != id) && after == Remove(q, k)
  }

  lemma {:induction false} FirstNamed(q: seq<OrderView>, id: string) returns (k: nat)
    requires Has(q, id)
    ensures k < |q| && q[k].id == id && forall j :: 0 <= j < k ==> q[j].id != id
    decreases |q|
  {
    if q[0].id == id {
      k := 0;
    } else {
      HasTail(q, id);
      k := FirstNamed(q[1..], id);
      forall j | 0 <= j < k + 1 ensures q[j].id != id { if j > 0 { assert q[1..][j - 1] == q[j]; } }
      k := k + 1;
    }
  }

  lemma WithoutTakesOut(q: seq<OrderView>, id: string)
    ensures Has(q, id) ==> TakenOut(q, id, Without(q, id))
  {
    if Has(q, id) {
      var k := FirstNamed(q, id);
      WithoutAt(q, k, id);
    }
  }

  /** A cancel takes exactly one order out, the first of its name among the armed stops, else among the bids,
      else among the asks, counts in the sequence number, and touches nothing else; it finds nothing exactly
      when no order has that name. */
  lemma CancelTakesOne(b: BookView, id: string)
    ensures
      var (after, ok) := Cancel(b, id);
      (ok <==> Has(b.watch.stops, id) || Has(b.Queue(Buy), id) || Has(b.Queue(Sell), id)) &&
      (!ok ==> after == b) &&
      (ok ==> after.mode == b.mode && after.watch == b.watch.(number := b.watch.number + 1, stops := after.watch.stops)) &&
      (if Has(b.watch.stops, id) then TakenOut(b.watch.stops, id, after.watch.stops) else after.watch.stops == b.watch.stops) &&
      (if !Has(b.watch.stops, id) && Has(b.Queue(Buy), id) then TakenOut(b.Queue(Buy), id, after.Queue(Buy)) else after.bids == b.bids) &&
      if !Has(b.watch.stops, id) && !Has(b.Queue(Buy), id) && Has(b.Queue(Sell), id) then TakenOut(b.Queue(Sell), id, after.Queue(Sell))
      else after.asks == b.asks
  {
    WithoutTakesOut(b.watch.stops, id);
    WithoutTakesOut(b.Queue(Buy), id);
    WithoutTakesOut(b.Queue(Sell), id);
    FlatWithout(b.bids, id);
    FlatWithout(b.asks, id);
    hide Has, HasLevel, Without, WithoutLevel, Flat, TakenOut;
  }
}
