/** What a caller sees of one match: the trades, the residual book, and the promises of the
    fill-or-kill, immediate-or-cancel and post-only modifiers. */
module Modifiers {
  import opened Book
  import opened Priority
  import opened BookInvariant

  lemma {:induction false} FlatOpen(levels: seq<Level>, side: Side)
    requires SideInv(levels, side)
    ensures AllOpen(Flat(levels))
  {
    forall k | 0 <= k < |Flat(levels)| ensures 0.0 <= Flat(levels)[k].filled < Flat(levels)[k].qty {
      FlatPrices(levels, side, k);
    }
  }

  /** What matching does, said on the flat opposite queue. */
  lemma MatchOnQueue(b: BookView, o: OrderView)
    requires BookInv(b) && !Refused(b, o)
    ensures
      var x := Sweep(b.mode, o, b.Queue(o.side.Opposite()));
      var m := Match(b, o);
      m.trades == TradesOf(o, x.fills, b.watch.number) &&
      m.book.Queue(o.side.Opposite()) == x.queue &&
      m.order == if !x.stopped && x.taker.Open() > 0.0 && x.taker.tif.IOC? then x.taker.(status := Cancelled) else x.taker
  {
    hide Refused, Sweep, SweepLevels, Insert, Ripple, TradesOf, SideInv, Flat;
    LevelsRefineQueue(b.mode, o, b.On(o.side.Opposite()));
    SweepKeepsTerms(b.mode, o, b.Queue(o.side.Opposite()));
  }

  /** The fills of the reference sweep: allotted first come first served over the eligible orders. */
  lemma SweepIsGreedy(b: BookView, o: OrderView)
    requires BookInv(b) && OrderOk(o)
    ensures
      var q := b.Queue(o.side.Opposite());
      var x := Sweep(b.mode, o, q);
      x.fills == Allot(o.Open(), Eligible(b.mode, o, q)) &&
      x.taker.filled == o.filled + FillSum(x.fills) &&
      FillSum(x.fills) == Min(o.Open(), OpenSum(Eligible(b.mode, o, q)))
  {
    FlatOpen(b.On(o.side.Opposite()), o.side.Opposite());
    FillsAreAllotted(b.mode, o, b.Queue(o.side.Opposite()));
    FilledIsMin(b.mode, o, b.Queue(o.side.Opposite()));
  }

  /** An accepted order trades greedily with the flat opposite queue: the trades report the
      first-come-first-served allotment over the eligible orders, numbered consecutively; the
      opposite queue is what that allotment leaves; and the order gains exactly their quantities,
      the smaller of what it asks and what it is eligible for. */
  lemma MatchIsGreedy(b: BookView, o: OrderView)
    requires BookInv(b) && OrderOk(o) && !Refused(b, o)
    ensures
      var q := b.Queue(o.side.Opposite());
      var fills := Allot(o.Open(), Eligible(b.mode, o, q));
      var m := Match(b, o);
      m.trades == TradesOf(o, fills, b.watch.number) &&
      m.book.Queue(o.side.Opposite()) == Sweep(b.mode, o, q).queue &&
      m.order.filled - o.filled == FillSum(fills) == Min(o.Open(), OpenSum(Eligible(b.mode, o, q)))
  {
    MatchOnQueue(b, o);
    SweepIsGreedy(b, o);
  }

  lemma RefusedMatch(b: BookView, o: OrderView)
    requires Refused(b, o)
    ensures Match(b, o) == Matched(b, o.(status := Rejected), [])
  {}

  /** Unless self-trades are allowed, no trade has the same user on both sides; every trade is at
      a price the incoming order accepts and for a positive quantity. */
  lemma TradesAreFair(b: BookView, o: OrderView, k: nat)
    requires BookInv(b) && OrderOk(o) && k < |Match(b, o).trades|
    ensures
      var t := Match(b, o).trades[k];
      (b.mode.Allow? || t.buyerId != t.sellerId) && t.qty > 0.0 && Crosses(o, t.price)
  {
    hide Match, Refused, Sweep, TradesOf, BookInv, Flat, Crosses;
    var q := b.Queue(o.side.Opposite());
    if Refused(b, o) {
      RefusedMatch(b, o);
    } else {
      MatchOnQueue(b, o);
      QueueOpen(b, o.side.Opposite());
      FillsAreFair(b.mode, o, q);
      TradesMirrorFills(o, Sweep(b.mode, o, q).fills, b.watch.number);
    }
  }

  lemma QueueOpen(b: BookView, side: Side)
    requires BookInv(b)
    ensures AllOpen(b.Queue(side))
  {
    FlatOpen(b.On(side), side);
  }

  /** How far an order got is what its status says. */
  lemma {:induction false} SweepStatus(mode: STPMode, t: OrderView, q: seq<OrderView>)
    requires AllOpen(q) && OrderOk(t)
    ensures
      var o := Sweep(mode, t, q);
      (o.taker.filled == o.taker.qty && t.filled < t.qty ==> o.taker.status.Filled? && !o.stopped) &&
      (o.taker.status.Filled? && !t.status.Filled? ==> o.taker.filled == o.taker.qty) &&
      (o.stopped ==> o.taker.status.Cancelled? && o.taker.filled < o.taker.qty) &&
      (o.taker.status.Rejected? ==> t.status.Rejected?)
    decreases |q|
  {
    if q != [] {
      assert AllOpen(q[1..]);
      var head, next := HeadAfter(mode, t, q[0]), NextTaker(mode, t, q[0]);
      if Steps(mode, t, q, head, next) {
        SweepStatus(mode, next, q[1..]);
        if next.filled == next.qty { SweepIdle(mode, next, q[1..]); }
      }
    }
  }

  lemma SweepIdle(mode: STPMode, t: OrderView, q: seq<OrderView>)
    requires t.Open() <= 0.0
    ensures Sweep(mode, t, q) == Outcome(t, [], [], q, false)
  {}

  predicate PricedFok(o: OrderView) {
    OrderOk(o) && o.filled < o.qty && !o.status.Filled? && !o.status.Rejected? &&
    o.otype.Limit? && o.price > 0.0 && o.tif.FOK? && !o.postOnly
  }

  /** Fill-or-kill is decided by the crossing quantity alone. */
  lemma FokRefused(b: BookView, o: OrderView)
    requires BookInv(b) && PricedFok(o)
    ensures Refused(b, o) <==> OpenSum(Crossing(o, b.Queue(o.side.Opposite()))) < o.Open()
  {}

  /** Completely filled means: status and quantity agree. */
  predicate Complete(o: OrderView) { o.status.Filled? && o.filled == o.qty }

  lemma FokAccepted(b: BookView, o: OrderView)
    requires BookInv(b) && PricedFok(o) && !Refused(b, o)
    ensures !Match(b, o).order.status.Rejected?
    ensures Complete(Match(b, o).order) <==> OpenSum(Eligible(b.mode, o, b.Queue(o.side.Opposite()))) >= o.Open()
  {
    MatchOnQueue(b, o);
    SweepIsGreedy(b, o);
    FlatOpen(b.On(o.side.Opposite()), o.side.Opposite());
    SweepKeepsTerms(b.mode, o, b.Queue(o.side.Opposite()));
    SweepStatus(b.mode, o, b.Queue(o.side.Opposite()));
  }

  /** Fill-or-kill.  A priced limit order is refused, with no trade and the book untouched, exactly
      when the crossing quantity is short of what it asks.  When it is accepted it is filled
      completely exactly when the quantity it is eligible for suffices, which self-trade prevention
      can make smaller than the crossing quantity. */
  lemma FillOrKill(b: BookView, o: OrderView)
    requires BookInv(b) && PricedFok(o)
    ensures
      var crossing := OpenSum(Crossing(o, b.Queue(o.side.Opposite())));
      var eligible := OpenSum(Eligible(b.mode, o, b.Queue(o.side.Opposite())));
      var m := Match(b, o);
      (crossing < o.Open() <==> m.order.status.Rejected?) &&
      (m.order.status.Rejected? ==> m == Matched(b, o.(status := Rejected), [])) &&
      (crossing >= o.Open() ==> (Complete(m.order) <==> eligible >= o.Open()))
  {
    FokRefused(b, o);
    if !Refused(b, o) { FokAccepted(b, o); }
  }

  /** With no crossing order of its own, or self-trades allowed, fill-or-kill is all or nothing. */
  lemma FillOrKillAllOrNothing(b: BookView, o: OrderView)
    requires BookInv(b) && PricedFok(o)
    requires
      var own := Crossing(o, b.Queue(o.side.Opposite()));
      b.mode.Allow? || forall i :: 0 <= i < |own| ==> own[i].user != o.user
    ensures
      var m := Match(b, o);
      m == Matched(b, o.(status := Rejected), []) || Complete(m.order)
  {
    FillOrKill(b, o);
    StrangersAllEligible(o.user, Crossing(o, b.Queue(o.side.Opposite())));
  }

  lemma {:induction false} StrangersAllEligible(user: string, q: seq<OrderView>)
    ensures (forall i :: 0 <= i < |q| ==> q[i].user != user) ==> BeforeOwn(user, q) == q && Others(user, q) == q
    decreases |q|
  {
    if q != [] { StrangersAllEligible(user, q[1..]); }
  }

  function AskOf(user: string, id: string): OrderView {
    OrderView(id, user, Sell, Limit, 10.0, 1.0, 0.0, New, GTC, false)
  }

  /** The guarantee does fail with an own order in the way: a fill-or-kill buy of 2 against a
      stranger's 1 and an own 1 passes the depth check, trades 1 and is then cancelled. */
  lemma FillOrKillCutShort(b: BookView, o: OrderView)
    requires b == BookView(CancelNewest, [], [Level(10.0, [AskOf("bob", "s1"), AskOf("ann", "s2")])], Watch([], [], 0.0, 0))
    requires o == OrderView("b1", "ann", Buy, Limit, 10.0, 2.0, 0.0, New, FOK, false)
    ensures BookInv(b) && PricedFok(o)
    ensures !Complete(Match(b, o).order) && !Match(b, o).order.status.Rejected? && Match(b, o).order.filled == 1.0
  {
    assert LevelOk(b.asks[0], Sell);
    assert Flat(b.asks[1..]) == [];
    assert b.Queue(Sell) == b.asks[0].orders;
    CutShortSums(o, b.asks[0].orders);
    CutShortMatch(b, o);
  }

  lemma CutShortSums(o: OrderView, q: seq<OrderView>)
    requires q == [AskOf("bob", "s1"), AskOf("ann", "s2")]
    requires o == OrderView("b1", "ann", Buy, Limit, 10.0, 2.0, 0.0, New, FOK, false)
    ensures OpenSum(Crossing(o, q)) == 2.0 && OpenSum(BeforeOwn("ann", Crossing(o, q))) == 1.0
  {
    assert q[1..] == [q[1]] && q[1..][1..] == [];
    assert Crossing(o, q[1..]) == q[1..] && Crossing(o, q) == q;
    assert OpenSum(q[1..]) == 1.0;
    assert BeforeOwn("ann", q[1..]) == [] && BeforeOwn("ann", q) == [q[0]];
    assert [q[0]][1..] == [];
  }

  lemma CutShortMatch(b: BookView, o: OrderView)
    requires BookInv(b) && PricedFok(o) && b.mode.CancelNewest? && o.Open() == 2.0 && o.filled == 0.0
    requires OpenSum(Crossing(o, b.Queue(o.side.Opposite()))) == 2.0
    requires OpenSum(BeforeOwn(o.user, Crossing(o, b.Queue(o.side.Opposite())))) == 1.0
    ensures !Complete(Match(b, o).order) && !Match(b, o).order.status.Rejected? && Match(b, o).order.filled == 1.0
  {
    FokRefused(b, o);
    FokAccepted(b, o);
    MatchIsGreedy(b, o);
  }

  /** A post-only limit order never takes: no trade, and the opposite side is untouched. */
  lemma PostOnlyNeverTakes(b: BookView, o: OrderView)
    requires BookInv(b) && o.postOnly && o.otype.Limit?
    ensures Match(b, o).trades == [] && Match(b, o).book.On(o.side.Opposite()) == b.On(o.side.Opposite())
  {}

  /** Market and immediate-or-cancel orders never rest. */
  lemma NeverRests(b: BookView, o: OrderView)
    requires BookInv(b) && OrderOk(o) && (!o.otype.Limit? || o.tif.IOC?)
    ensures Match(b, o).book.On(o.side) == b.On(o.side)
  {
    SweptSide(b.mode, o, b.On(o.side.Opposite()));
  }

  /** Every trade of a match says who bought from whom: between the incoming order and a resting one, at the
      price of the resting one, numbered on from the last. */
  lemma TradesSayWho(b: BookView, o: OrderView, k: nat)
    requires BookInv(b) && OrderOk(o) && k < |Match(b, o).trades|
    ensures
      var t, q := Match(b, o).trades[k], b.Queue(o.side.Opposite());
      t.number == b.watch.number + 1 + k && t.qty > 0.0 &&
      exists i :: 0 <= i < |q| && t.price == q[i].price &&
        if o.side.Buy? then t.buyerId == o.user && t.buyOrderId == o.id && t.sellerId == q[i].user && t.sellOrderId == q[i].id
        else t.sellerId == o.user && t.sellOrderId == o.id && t.buyerId == q[i].user && t.buyOrderId == q[i].id
  {
    hide Match, Refused, Sweep, TradesOf, BookInv, Flat, Crosses;
    var q := b.Queue(o.side.Opposite());
    if Refused(b, o) {
      RefusedMatch(b, o);
    } else {
      MatchOnQueue(b, o);
      QueueOpen(b, o.side.Opposite());
      FillsAreFair(b.mode, o, q);
      var fills := Sweep(b.mode, o, q).fills;
      TradesMirrorFills(o, fills, b.watch.number);
      var f := fills[k];
      var i :| 0 <= i < |q| && f.makerId == q[i].id && f.makerUser == q[i].user && f.price == q[i].price;
      assert q[i].price == f.price;
    }
  }
}
