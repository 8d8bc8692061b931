/** The insurance fund never loses on the fills of limit liquidation orders. */
module Insurance {
  import opened Book
  import opened Priority
  import opened BookInvariant
  import opened Modifiers
  import opened BookQueues
  import opened Accounts
  import opened Execution
  import opened OmsState
  import opened Desk
  import opened DeskRuns
  import opened DeskQueues

  /** The liquidation engine's orders stand on the book at the price their record names. */
  predicate Named(orders: Register, r: OrderView) {
    r.user == LIQUIDATOR ==> r.id in orders && orders[r.id].price == r.price
  }

  predicate AllNamed(d: Desk) {
    Everywhere(d.book, r => Named(d.orders, r))
  }

  lemma NamedIsCarried(orders: Register)
    ensures Carried(r => Named(orders, r))
  {}

  /** The liquidation engine submits plain limit orders. */
  predicate LimitLiquidations(r: Request) {
    r.Place? && r.order.user == LIQUIDATOR ==> r.order.otype.Limit?
  }

  /** A fill of a taker that respects its limit, against makers standing at their named price,
      is no loss: at worst it is at the bankruptcy price. */
  lemma FillIsNoLoss(orders: Register, t: OrderView, maker: OrderView, qty: real, number: nat)
    requires qty > 0.0 && Crosses(t, maker.price)
    requires Named(orders, maker) && Named(orders, t) && (t.user == LIQUIDATOR ==> t.otype.Limit?)
    ensures Surplus(orders, TradeOf(t, Fill(maker.id, maker.user, maker.price, qty), number)) >= 0.0
  {
    var trade := TradeOf(t, Fill(maker.id, maker.user, maker.price, qty), number);
    var id := if trade.sellerId == LIQUIDATOR then trade.sellOrderId else trade.buyOrderId;
    if id in orders && (trade.buyerId == LIQUIDATOR || trade.sellerId == LIQUIDATOR) {
      var edge := if trade.sellerId == LIQUIDATOR then trade.price - orders[id].price else orders[id].price - trade.price;
      assert edge >= 0.0;
      NonNegative(edge, qty);
    }
  }

  lemma NonNegative(x: real, y: real)
    requires x >= 0.0 && y >= 0.0
    ensures x * y >= 0.0
  {}

  lemma LocalIsNoLoss(orders: Register, b: BookView, o: OrderView, k: nat)
    requires BookInv(b) && OrderOk(o) && k < |Match(b, o).trades|
    requires Everywhere(b, r => Named(orders, r)) && Named(orders, o) && (o.user == LIQUIDATOR ==> o.otype.Limit?)
    ensures Surplus(orders, Match(b, o).trades[k]) >= 0.0
  {
    hide Match, Refused, Sweep, BookInv, Surplus, TradeOf, TradesOf, Flat, Named, Crosses;
    if Refused(b, o) {
      RefusedMatch(b, o);
    } else {
      var q := b.Queue(o.side.Opposite());
      var fills := Sweep(b.mode, o, q).fills;
      MatchQueues(b, o);
      TradesMirrorFills(o, fills, b.watch.number);
      OpenQueue(b, o.side.Opposite());
      FillsAreFair(b.mode, o, q);
      var f := fills[k];
      var i :| 0 <= i < |q| && f.makerId == q[i].id && f.makerUser == q[i].user && f.price == q[i].price;
      FillIsNoLoss(orders, o, q[i], f.qty, b.watch.number + 1 + k);
    }
  }

  lemma OpenQueue(b: BookView, side: Side)
    requires BookInv(b)
    ensures AllOpen(b.Queue(side))
  {
    FlatOpen(b.On(side), side);
  }

  lemma {:induction false} ExternalIsNoLoss(orders: Register, t: OrderView, levels: seq<ExtLevel>, k: nat)
    requires Named(orders, t) && (t.user == LIQUIDATOR ==> t.otype.Limit?)
    requires k < |ExtSweep(t, levels).trades|
    ensures Surplus(orders, ExtSweep(t, levels).trades[k]) >= 0.0
    decreases |levels|
  {
    hide Surplus, ExtTrade, Crosses;
    var amount := Min(t.Open(), levels[0].qty);
    if amount <= 0.0 {
      ExternalIsNoLoss(orders, t, levels[1..], k);
    } else if k > 0 {
      var next := t.(filled := t.filled + amount,
                     status := if t.filled + amount >= t.qty then Filled else PartiallyFilled);
      ExternalIsNoLoss(orders, next, levels[1..], k - 1);
      assert ExtSweep(t, levels).trades[k] == ExtSweep(next, levels[1..]).trades[k - 1];
    } else {
      OutFillIsNoLoss(orders, t, levels[0], amount);
    }
  }

  lemma OutFillIsNoLoss(orders: Register, t: OrderView, l: ExtLevel, amount: real)
    requires Named(orders, t) && (t.user == LIQUIDATOR ==> t.otype.Limit?) && Crosses(t, l.price) && amount > 0.0
    ensures Surplus(orders, ExtTrade(t, l, amount)) >= 0.0
  {
    if t.user == LIQUIDATOR {
      NonNegative(if t.side.Sell? then l.price - orders[t.id].price else orders[t.id].price - l.price, amount);
    }
  }

  /** No trade of a request takes the loss branch, so auto-deleveraging is never reached. */
  lemma NoLossBranch(orders: Register, b: BookView, o: OrderView, a: Answers, k: nat)
    requires BookInv(b) && OrderOk(o) && k < |MatchAll(b, o, a).trades|
    requires Everywhere(b, r => Named(orders, r)) && Named(orders, o) && (o.user == LIQUIDATOR ==> o.otype.Limit?)
    ensures Surplus(orders, MatchAll(b, o, a).trades[k]) >= 0.0
  {
    hide Match, Surplus, BookInv, Everywhere;
    var m := Match(b, o);
    if k < |m.trades| {
      LocalIsNoLoss(orders, b, o, k);
      assert MatchAll(b, o, a).trades[k] == m.trades[k];
    } else {
      SameTermsAfter(b, o);
      ExternalIsNoLoss(orders, m.order, a.external, k - |m.trades|);
    }
  }

  lemma {:induction false} SurplusSum(orders: Register, trades: seq<Trade>)
    requires forall k :: 0 <= k < |trades| ==> Surplus(orders, trades[k]) >= 0.0
    ensures SurplusAll(orders, trades) >= 0.0
    decreases |trades|
  {
    if trades != [] { SurplusSum(orders, trades[1..]); }
  }

  // ---------------------------------------------------------------------------
  // Runs
  // ---------------------------------------------------------------------------

  predicate Insured(d: Desk) { SoundBook(d.book) && AllNamed(d) }

  /** Orders keep their names when records are added or updated at an unchanged price. */
  predicate KeepsPrices(orders: Register, orders': Register) {
    forall id :: id in orders ==> id in orders' && orders'[id].price == orders[id].price
  }

  lemma NamedGrows(b: BookView, orders: Register, orders': Register)
    requires Everywhere(b, r => Named(orders, r)) && KeepsPrices(orders, orders')
    ensures Everywhere(b, r => Named(orders', r))
  {}

  lemma {:induction false} MakersKeepPrices(orders: Register, side: Side, trades: seq<Trade>)
    ensures KeepsPrices(orders, SyncMakers(orders, side, trades))
    decreases |trades|
  {
    if trades != [] { MakersKeepPrices(SyncMaker(orders, side, trades[0]), side, trades[1..]); }
  }

  lemma MatchAllNamed(orders: Register, b: BookView, o: OrderView, a: Answers)
    requires SoundBook(b) && OrderOk(o) && Everywhere(b, r => Named(orders, r)) && Named(orders, o)
    ensures Everywhere(MatchAll(b, o, a).book, r => Named(orders, r))
  {
    hide MatchAll, Everywhere, SoundBook, Named;
    NamedIsCarried(orders);
    MatchAllCarries(b, o, a, r => Named(orders, r));
  }

  lemma ServeInsured(fs: FeeSchedule, m: Market, d: Desk, r: Request)
    requires Insured(d) && WellPosed(d, r) && LimitLiquidations(r)
    ensures Insured(Serve(fs, m, d, r)) && Serve(fs, m, d, r).fund >= d.fund
  {
    ServeSound(fs, m, d, r);
    match r
    case Place(o, a) => PlaceInsured(fs, m, d, o, a);
    case Withdrawal(id, unstored) => WithdrawInsured(fs, d, id, unstored);
    case DepositFunds(_, _, _) =>
    case StopRuns(i) => if i < |d.book.watch.pending| { LaunchInsured(d, i); }
    case UseMode(mode) =>
  }

  lemma WithdrawInsured(fs: FeeSchedule, d: Desk, id: string, unstored: bool)
    requires AllNamed(d)
    ensures AllNamed(Withdraw(fs, d, id, unstored)) && Withdraw(fs, d, id, unstored).fund == d.fund
  {
    hide Cancel, Everywhere, ReleaseOpen;
    CancelCarries(d.book, id, r => Named(d.orders, r));
    NamedGrows(Book.Cancel(d.book, id).0, d.orders, Move(d.orders, id, Withdrawn));
  }

  lemma LaunchInsured(d: Desk, i: nat)
    requires Insured(d) && i < |d.book.watch.pending|
    ensures Everywhere(Match(Launch(d.book, i), d.book.watch.pending[i]).book, r => Named(d.orders, r))
  {
    hide Match;
    NamedIsCarried(d.orders);
    assert OrderOk(d.book.watch.pending[i]) && Named(d.orders, d.book.watch.pending[i]);
    MatchCarries(Launch(d.book, i), d.book.watch.pending[i], r => Named(d.orders, r));
  }

  lemma PlaceInsured(fs: FeeSchedule, m: Market, d: Desk, o: OmsOrder, a: Answers)
    requires Insured(d) && o.id !in d.orders && OrderOk(LegacyOf(o)) && (o.user == LIQUIDATOR ==> o.otype.Limit?)
    ensures AllNamed(Process(fs, m, d, o, a)) && Process(fs, m, d, o, a).fund >= d.fund
  {
    hide Match, MatchAll, SettleAll, Reserve, CanReserve, Everywhere, SyncMakers, SyncTaker, SoundBook;
    NamedGrows(d.book, d.orders, Admit(d, o, StageReached(a)).orders);
    NamedGrows(d.book, d.orders, Admit(d, o, Queued).orders);
    if IsStop(o.otype) {
      StopNamed(d.book, Admit(d, o, Queued).orders, LegacyOf(o).(price := TriggerPrice(o)));
    } else {
      ClearInsured(fs, m, Admit(d, o, Queued).(funds := Reserve(fs, m, d, o)), o, a);
    }
  }

  lemma StopNamed(b: BookView, orders: Register, o: OrderView)
    requires Everywhere(b, r => Named(orders, r)) && o.user != LIQUIDATOR
    ensures Everywhere(AddStop(b, o), r => Named(orders, r))
  {}

  lemma ClearInsured(fs: FeeSchedule, m: Market, d: Desk, o: OmsOrder, a: Answers)
    requires Insured(d) && o.id in d.orders && d.orders[o.id].price == o.price
    requires OrderOk(LegacyOf(o)) && (o.user == LIQUIDATOR ==> o.otype.Limit?)
    ensures AllNamed(Clear(fs, m, d, o, a)) && Clear(fs, m, d, o, a).fund >= d.fund
  {
    hide Match, MatchAll, SettleAll, Everywhere, SyncMakers, BookInv, Surplus;
    var view := LegacyOf(o);
    var all := MatchAll(d.book, view, a);
    MatchAllNamed(d.orders, d.book, view, a);
    forall k | 0 <= k < |all.trades| ensures Surplus(d.orders, all.trades[k]) >= 0.0 {
      NoLossBranch(d.orders, d.book, view, a, k);
    }
    SurplusSum(d.orders, all.trades);
    var taker := SyncTaker(d.orders, o.id, all.order);
    assert KeepsPrices(d.orders, taker);
    MakersKeepPrices(taker, o.side, Match(d.book, view).trades);
    NamedGrows(all.book, d.orders, taker);
    NamedGrows(all.book, taker, SyncMakers(taker, o.side, Match(d.book, view).trades));
  }

  /** Every submission of the run is well-posed when it is served. */
  predicate Admissible(fs: FeeSchedule, m: Market, d: Desk, rs: seq<Request>)
    decreases |rs|
  {
    rs == [] || (WellPosed(d, rs[0]) && LimitLiquidations(rs[0]) && Admissible(fs, m, Serve(fs, m, d, rs[0]), rs[1..]))
  }

  /** Over any run, with any interleaving of triggered stops, any self-trade mode and any external
      liquidity, the insurance fund never decreases, provided liquidations are limit orders. */
  lemma {:induction false} FundNeverDecreases(fs: FeeSchedule, m: Market, d: Desk, rs: seq<Request>)
    requires Insured(d) && Admissible(fs, m, d, rs)
    ensures Insured(ServeAll(fs, m, d, rs)) && ServeAll(fs, m, d, rs).fund >= d.fund
    decreases |rs|
  {
    hide Insured, Serve;
    if rs != [] {
      ServeInsured(fs, m, d, rs[0]);
      FundNeverDecreases(fs, m, Serve(fs, m, d, rs[0]), rs[1..]);
    }
  }

  /** Trading starts insured. */
  lemma EmptyIsInsured(d: Desk)
    requires d.book == BookView(CancelNewest, [], [], Watch([], [], 0.0, 0))
    ensures Insured(d)
  {}

  // ---------------------------------------------------------------------------
  // What the fund gains
  // ---------------------------------------------------------------------------

  /** The records the trades of a request are booked against. */
  function RecordsAt(d: Desk, r: Request): Register {
    if r.Place? then d.orders[r.order.id := r.order.(stage := Queued)] else d.orders
  }

  /** What a trade of the liquidation engine is worth to the fund: the quantity times how much better than
      the price of its record it sells or buys. */
  function Edge(orders: Register, t: Trade): real {
    if t.sellerId == LIQUIDATOR then
      if t.sellOrderId in orders then t.qty * (t.price - orders[t.sellOrderId].price) else 0.0
    else if t.buyerId == LIQUIDATOR then
      if t.buyOrderId in orders then t.qty * (orders[t.buyOrderId].price - t.price) else 0.0
    else 0.0
  }

  function EdgeSum(orders: Register, trades: seq<Trade>): real {
    if trades == [] then 0.0 else Edge(orders, trades[0]) + EdgeSum(orders, trades[1..])
  }

  lemma SurplusIsEdge(orders: Register, t: Trade)
    ensures Surplus(orders, t) == Edge(orders, t)
  {}

  lemma {:induction false} SurplusIsSum(orders: Register, trades: seq<Trade>)
    ensures SurplusAll(orders, trades) == EdgeSum(orders, trades)
    decreases |trades|
  {
    hide Surplus, Edge;
    if trades != [] {
      SurplusIsEdge(orders, trades[0]);
      SurplusIsSum(orders, trades[1..]);
    }
  }

  /** Every request changes the fund by exactly what its liquidation trades are worth, and by nothing else. */
  lemma FundChange(fs: FeeSchedule, m: Market, d: Desk, r: Request)
    ensures Serve(fs, m, d, r).fund == d.fund + EdgeSum(RecordsAt(d, r), Reported(fs, m, d, r))
  {
    hide Match, MatchAll, SettleAll, Reserve, CanReserve, SyncMakers, SyncTaker, Surplus, Edge, ReleaseOpen, Cancel, Accepts;
    SurplusIsSum(RecordsAt(d, r), Reported(fs, m, d, r));
  }

  /** A liquidation sale above the price of its record, or a purchase below it. */
  predicate Gainful(orders: Register, t: Trade) {
    t.qty > 0.0 &&
    ((t.sellerId == LIQUIDATOR && t.sellOrderId in orders && t.price > orders[t.sellOrderId].price) ||
     (t.sellerId != LIQUIDATOR && t.buyerId == LIQUIDATOR && t.buyOrderId in orders && t.price < orders[t.buyOrderId].price))
  }

  lemma EdgeIff(orders: Register, t: Trade)
    requires t.qty > 0.0
    ensures Edge(orders, t) > 0.0 <==> Gainful(orders, t)
  {
    if t.sellerId == LIQUIDATOR && t.sellOrderId in orders { Sign(t.qty, t.price - orders[t.sellOrderId].price); }
    if t.buyerId == LIQUIDATOR && t.buyOrderId in orders { Sign(t.qty, orders[t.buyOrderId].price - t.price); }
  }

  lemma Sign(x: real, y: real)
    requires x > 0.0
    ensures x * y > 0.0 <==> y > 0.0
  {
    if y > 0.0 {
      NonNegative(x, y);
      assert x * y != 0.0;
    } else {
      NonNegative(x, -y);
      assert x * y == -(x * -y);
    }
  }

  predicate SomeGainful(orders: Register, trades: seq<Trade>) {
    exists k :: 0 <= k < |trades| && Gainful(orders, trades[k])
  }

  lemma {:induction false} EdgesIff(orders: Register, trades: seq<Trade>)
    requires forall k :: 0 <= k < |trades| ==> trades[k].qty > 0.0 && Edge(orders, trades[k]) >= 0.0
    ensures EdgeSum(orders, trades) >= 0.0
    ensures EdgeSum(orders, trades) > 0.0 <==> SomeGainful(orders, trades)
    decreases |trades|
  {
    hide Edge, Gainful;
    if trades != [] {
      EdgeIff(orders, trades[0]);
      EdgesIff(orders, trades[1..]);
      if SomeGainful(orders, trades[1..]) {
        var k :| 0 <= k < |trades[1..]| && Gainful(orders, trades[1..][k]);
        assert Gainful(orders, trades[k + 1]);
      }
      if SomeGainful(orders, trades) && !Gainful(orders, trades[0]) {
        var k :| 0 <= k < |trades| && Gainful(orders, trades[k]);
        assert trades[1..][k - 1] == trades[k];
      }
    }
  }

  lemma BookedPositive(b: BookView, o: OrderView, a: Answers, k: nat)
    requires BookInv(b) && OrderOk(o) && k < |MatchAll(b, o, a).trades|
    ensures MatchAll(b, o, a).trades[k].qty > 0.0
  {
    hide Match, BookInv, Crosses;
    var m := Match(b, o);
    if k < |m.trades| { TradesAreFair(b, o, k); } else { OutPositive(m.order, a.external, k - |m.trades|); }
  }

  lemma {:induction false} OutPositive(t: OrderView, levels: seq<ExtLevel>, k: nat)
    requires k < |ExtSweep(t, levels).trades|
    ensures ExtSweep(t, levels).trades[k].qty > 0.0
    decreases |levels|
  {
    hide Crosses;
    var amount := Min(t.Open(), levels[0].qty);
    if amount <= 0.0 {
      OutPositive(t, levels[1..], k);
    } else if k > 0 {
      OutPositive(t.(filled := t.filled + amount, status := if t.filled + amount >= t.qty then Filled else PartiallyFilled), levels[1..], k - 1);
    }
  }

  /** A request makes the fund grow exactly when one of its liquidation trades is better than the bankruptcy
      price. */
  lemma FundGrowsIff(fs: FeeSchedule, m: Market, d: Desk, r: Request)
    requires Insured(d) && WellPosed(d, r) && LimitLiquidations(r)
    ensures Serve(fs, m, d, r).fund > d.fund <==> SomeGainful(RecordsAt(d, r), Reported(fs, m, d, r))
  {
    hide Match, MatchAll, Surplus, Edge, Gainful, BookInv, Everywhere, Serve, Accepts, Named;
    FundChange(fs, m, d, r);
    var orders, trades := RecordsAt(d, r), Reported(fs, m, d, r);
    forall k | 0 <= k < |trades| ensures trades[k].qty > 0.0 && Edge(orders, trades[k]) >= 0.0 {
      NamedGrows(d.book, d.orders, orders);
      OwnName(d, r.order);
      NoLossBranch(orders, d.book, LegacyOf(r.order), r.answers, k);
      BookedPositive(d.book, LegacyOf(r.order), r.answers, k);
      SurplusIsEdge(orders, trades[k]);
    }
    EdgesIff(orders, trades);
  }

  lemma OwnName(d: Desk, o: OmsOrder)
    ensures Named(d.orders[o.id := o.(stage := Queued)], LegacyOf(o))
  {}

  /** What the liquidation trades of a run are worth. */
  function RunEdge(fs: FeeSchedule, m: Market, d: Desk, rs: seq<Request>): real
    decreases |rs|
  {
    if rs == [] then 0.0
    else EdgeSum(RecordsAt(d, rs[0]), Reported(fs, m, d, rs[0])) + RunEdge(fs, m, Serve(fs, m, d, rs[0]), rs[1..])
  }

  predicate RunGainful(fs: FeeSchedule, m: Market, d: Desk, rs: seq<Request>)
    decreases |rs|
  {
    rs != [] &&
    (SomeGainful(RecordsAt(d, rs[0]), Reported(fs, m, d, rs[0])) || RunGainful(fs, m, Serve(fs, m, d, rs[0]), rs[1..]))
  }

  /** Over every run, whatever is submitted, the fund changes by what the liquidation trades are worth. */
  lemma {:induction false} FundIsEdges(fs: FeeSchedule, m: Market, d: Desk, rs: seq<Request>)
    ensures ServeAll(fs, m, d, rs).fund == d.fund + RunEdge(fs, m, d, rs)
    decreases |rs|
  {
    hide Serve, EdgeSum, Reported, RecordsAt;
    if rs != [] {
      FundChange(fs, m, d, rs[0]);
      FundIsEdges(fs, m, Serve(fs, m, d, rs[0]), rs[1..]);
    }
  }

  /** Over every run with limit liquidation orders the fund grows exactly when some liquidation trade of it
      is better than the bankruptcy price. */
  lemma {:induction false} FundGrowsThroughout(fs: FeeSchedule, m: Market, d: Desk, rs: seq<Request>)
    requires Insured(d) && Admissible(fs, m, d, rs)
    ensures ServeAll(fs, m, d, rs).fund > d.fund <==> RunGainful(fs, m, d, rs)
    decreases |rs|
  {
    hide Insured, Serve, SomeGainful, Reported, RecordsAt, WellPosed;
    if rs != [] {
      ServeInsured(fs, m, d, rs[0]);
      FundGrowsIff(fs, m, d, rs[0]);
      FundGrowsThroughout(fs, m, Serve(fs, m, d, rs[0]), rs[1..]);
      FundNeverDecreases(fs, m, Serve(fs, m, d, rs[0]), rs[1..]);
    }
  }
}
