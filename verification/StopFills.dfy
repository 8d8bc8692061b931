/** Triggered stops match on their own, and nobody tells the register: when that parts it from the trades. */
module StopFills {
  import opened Book
  import opened Priority
  import opened BookInvariant
  import opened Modifiers
  import opened Accounts
  import opened Execution
  import opened OmsState
  import opened Desk
  import opened DeskRuns
  import opened OmsAgreement
  import opened Claims
  import opened Shortfall

  /** The trades of a launched match, which are not reported. */
  function Unreported(b: BookView, i: nat): seq<Trade>
    requires i < |b.watch.pending|
  {
    Match(Launch(b, i), b.watch.pending[i]).trades
  }

  lemma {:induction false} TakerTraded(t: OrderView, fills: seq<Fill>, n: nat)
    requires forall k :: 0 <= k < |fills| ==> fills[k].qty > 0.0
    ensures Traded(TradesOf(t, fills, n), t.id) >= 0.0
    ensures fills != [] ==> Traded(TradesOf(t, fills, n), t.id) > 0.0
    decreases |fills|
  {
    if fills != [] {
      TakerTraded(t, fills[1..], n + 1);
      var rest := TradesOf(t, fills[1..], n + 1);
      assert ([TradeOf(t, fills[0], n + 1)] + rest)[1..] == rest;
    }
  }

  /** The register still agrees with all that was traded, after a launched match, if and only if it traded
      nothing. */
  lemma StopRunsAgreeIff(fs: FeeSchedule, m: Market, d: Desk, i: nat, history: seq<Trade>, initial: map<string, real>)
    requires SoundBook(d.book) && i < |d.book.watch.pending| && !Pseudo(d.book.watch.pending[i].id)
    requires HistoryAgrees(d.orders, history, initial)
    ensures HistoryAgrees(Serve(fs, m, d, StopRuns(i)).orders, history + Unreported(d.book, i), initial) <==> Unreported(d.book, i) == []
  {
    hide Match, SoundBook, Traded, RecordOk;
    var t, trades := d.book.watch.pending[i], Unreported(d.book, i);
    if trades == [] {
      assert history + trades == history;
    } else {
      TradedConcat(history, trades, t.id);
      LaunchTraded(d.book, i);
      if t.id in d.orders {
        RecordBreaks(d.orders[t.id], t.id, initial[t.id], Traded(history, t.id), Traded(history + trades, t.id));
      }
    }
  }

  lemma RecordBreaks(rec: OmsOrder, id: string, start: real, traded: real, now: real)
    requires RecordOk(rec, id, start, traded) && now != traded
    ensures !RecordOk(rec, id, start, now)
  {}

  lemma LaunchTraded(b: BookView, i: nat)
    requires SoundBook(b) && i < |b.watch.pending| && Unreported(b, i) != []
    ensures Traded(Unreported(b, i), b.watch.pending[i].id) > 0.0
  {
    hide Match, Sweep, Refused, BookInv, Flat, Traded, Crosses;
    var t, launched := b.watch.pending[i], Launch(b, i);
    assert OrderOk(t) && BookInv(launched) by { LaunchedSound(b, i); }
    if Refused(launched, t) {
      RefusedMatch(launched, t);
    } else {
      var q := launched.Queue(t.side.Opposite());
      MatchOnQueue(launched, t);
      QueueOpen(launched, t.side.Opposite());
      FillsAreFair(launched.mode, t, q);
      TakerTraded(t, Sweep(launched.mode, t, q).fills, launched.watch.number);
      NoFillsNoTrades(t, launched.watch.number);
    }
  }

  lemma LaunchedSound(b: BookView, i: nat)
    requires SoundBook(b) && i < |b.watch.pending|
    ensures OrderOk(b.watch.pending[i]) && BookInv(Launch(b, i))
  {}

  lemma NoFillsNoTrades(t: OrderView, n: nat)
    ensures TradesOf(t, [], n) == []
  {}

  // ---------------------------------------------------------------------------
  // A run
  // ---------------------------------------------------------------------------

  const SELLER := "bob"

  /** An offer of two, a stop buy of one at the offer's price, and a buy of one that triggers it. */
  function Offer(): OmsOrder { OmsOrder("s", SELLER, Sell, Limit, 10.0, 0.0, 2.0, 0.0, GTC, false, Created) }

  function StopBuy(): OmsOrder { OmsOrder("t", LIQUIDATOR, Buy, Stop, 10.0, 0.0, 1.0, 0.0, GTC, false, Created) }

  function Buyer(): OmsOrder { OmsOrder("b", LIQUIDATOR, Buy, Limit, 10.0, 0.0, 1.0, 0.0, GTC, false, Created) }

  function StopRun(m: Market): seq<Request> {
    [DepositFunds(SELLER, m.base, 2.0), Place(Offer(), CALM), Place(StopBuy(), CALM), Place(Buyer(), CALM), StopRuns(0)]
  }

  function BookOnOffer(): BookView {
    NO_ORDERS.(asks := [Level(10.0, [LegacyOf(Offer())])], watch := Watch([], [], 0.0, 1))
  }

  function BookArmed(): BookView { AddStop(BookOnOffer(), LegacyOf(StopBuy())) }

  function BookWaiting(): BookView {
    NO_ORDERS.(asks := [Level(10.0, [LegacyOf(Offer()).Take(1.0)])],
               watch := Watch([], [LegacyOf(StopBuy()).(otype := Limit)], 10.0, 2))
  }

  lemma OfferFirst()
    ensures
      var x := MatchAll(NO_ORDERS, LegacyOf(Offer()), CALM);
      x.book == BookOnOffer() && x.trades == []
  {}

  lemma Strangers()
    ensures SELLER != LIQUIDATOR
  {
    assert Other("") == SELLER;
  }

  /** A smaller order meets the head of a level and leaves it. */
  lemma PartFill(mode: STPMode, t: OrderView, r: OrderView)
    requires t.user != r.user && Crosses(t, r.price) && 0.0 < t.Open() < r.Open()
    ensures
      var n := t.Open();
      SweepLevels(mode, t, [Level(r.price, [r])]) ==
      LevelOutcome(t.Take(n), [FillOf(r, n)], [], [Level(r.price, [r.Take(n)])], false)
  {
    var n, levels := t.Open(), [Level(r.price, [r])];
    assert levels[1..] == [] && [r][1..] == [];
    assert [r.Take(n)] + [] == [r.Take(n)] && [Level(r.price, [r.Take(n)])] + [] == [Level(r.price, [r.Take(n)])];
    assert Sweep(mode, t, [r]) == Outcome(t.Take(n), [FillOf(r, n)], [], [r.Take(n)], false);
  }

  lemma BuyerTrades()
    ensures
      var x := MatchAll(BookArmed(), LegacyOf(Buyer()), CALM);
      x.book == BookWaiting() && x.trades == [Trade(2, LIQUIDATOR, SELLER, "b", "s", 10.0, 1.0)] &&
      x.order == LegacyOf(Buyer()).Take(1.0) && Match(BookArmed(), LegacyOf(Buyer())).trades == x.trades
  {
    hide SweepLevels, TradesOf;
    var t, r := LegacyOf(Buyer()), LegacyOf(Offer());
    var f := FillOf(r, 1.0);
    Strangers();
    PartFill(CancelNewest, t, r);
    OneFill(t, f, 1);
    StopFires(BookArmed().watch, f);
  }

  lemma StopFires(w: Watch, f: Fill)
    requires w.stops == [LegacyOf(StopBuy())] && w.pending == [] && f.price == 10.0
    ensures Ripple(w, [f]) == Watch([], [LegacyOf(StopBuy()).(otype := Limit)], 10.0, w.number + 1)
  {
    assert [f][1..] == [] && w.stops[1..] == [];
    assert [] + [LegacyOf(StopBuy()).(otype := Limit)] == [LegacyOf(StopBuy()).(otype := Limit)];
    assert [LegacyOf(StopBuy()).(otype := Limit)] + [] == [LegacyOf(StopBuy()).(otype := Limit)];
    assert Kept(w.stops, 10.0) == [] && Fired(w.stops, 10.0) == [LegacyOf(StopBuy()).(otype := Limit)];
  }

  lemma StopTrades()
    ensures
      var x := Match(Launch(BookWaiting(), 0), BookWaiting().watch.pending[0]);
      x.book.Queue(Buy) == [] && x.book.Queue(Sell) == [] && x.trades == [Trade(3, LIQUIDATOR, SELLER, "t", "s", 10.0, 1.0)]
  {
    hide SweepLevels, TradesOf, Ripple;
    var t, r := LegacyOf(StopBuy()).(otype := Limit), LegacyOf(Offer()).Take(1.0);
    Strangers();
    ExactLevel(CancelNewest, t, r, []);
    assert [Level(10.0, [r])] + [] == [Level(10.0, [r])];
    OneFill(t, FillOf(r, 1.0), 2);
  }

  function Queued(o: OmsOrder): OmsOrder { o.(stage := Stage.Queued) }

  lemma OfferRests(fs: FeeSchedule, m: Market, d: Desk)
    requires SpotMarket(m) && d.book == NO_ORDERS && d.orders == map[]
    requires d.funds.Balance(SELLER, m.base) == 2.0 && d.funds.Held(SELLER, m.base) == 0.0
    ensures
      var after := Serve(fs, m, d, Place(Offer(), CALM));
      after.book == BookOnOffer() && after.orders == map["s" := Queued(Offer())]
  {
    hide MatchAll, Match, At, Put;
    OfferFirst();
    Strangers();
    assert map[]["s" := Queued(Offer())] == map["s" := Queued(Offer())];
  }

  lemma StopArms(fs: FeeSchedule, m: Market, d: Desk)
    requires d.book == BookOnOffer() && d.orders == map["s" := Queued(Offer())]
    ensures
      var after := Serve(fs, m, d, Place(StopBuy(), CALM));
      after.book == BookArmed() && after.orders == map["s" := Queued(Offer()), "t" := Queued(StopBuy())]
  {
    hide Required;
    assert LegacyOf(StopBuy()).(price := TriggerPrice(StopBuy())) == LegacyOf(StopBuy());
  }

  function RecordsAfter(): Register {
    map["s" := Offer().(stage := PartFilled, filled := 1.0), "t" := Queued(StopBuy()),
        "b" := Buyer().(stage := FullyFilled, filled := 1.0)]
  }

  lemma Synced()
    ensures
      var before: Register := map["s" := Queued(Offer()), "t" := Queued(StopBuy()), "b" := Queued(Buyer())];
      var t := Trade(2, LIQUIDATOR, SELLER, "b", "s", 10.0, 1.0);
      SyncMakers(SyncTaker(before, "b", LegacyOf(Buyer()).Take(1.0)), Buy, [t]) == RecordsAfter()
  {
    var before: Register := map["s" := Queued(Offer()), "t" := Queued(StopBuy()), "b" := Queued(Buyer())];
    var t := Trade(2, LIQUIDATOR, SELLER, "b", "s", 10.0, 1.0);
    var taken := SyncTaker(before, "b", LegacyOf(Buyer()).Take(1.0));
    TakerSynced(before);
    MakerBooked(taken, t);
    assert [t][1..] == [];
    assert SyncMakers(taken, Buy, [t]) == SyncMakers(SyncMaker(taken, Buy, t), Buy, []);
  }

  lemma TakerSynced(before: Register)
    requires "b" in before && before["b"] == Queued(Buyer())
    ensures SyncTaker(before, "b", LegacyOf(Buyer()).Take(1.0)) == before["b" := Buyer().(stage := FullyFilled, filled := 1.0)]
  {
    var moved := before["b" := before["b"].(filled := 1.0)];
    assert moved["b" := moved["b"].(stage := FullyFilled)] == before["b" := Buyer().(stage := FullyFilled, filled := 1.0)];
  }

  lemma MakerBooked(taken: Register, t: Trade)
    requires "s" in taken && taken["s"] == Queued(Offer()) && t.sellOrderId == "s" && t.qty == 1.0
    ensures SyncMaker(taken, Buy, t) == taken["s" := Offer().(stage := PartFilled, filled := 1.0)]
  {
    var moved := taken["s" := taken["s"].(filled := 1.0)];
    assert moved["s" := moved["s"].(stage := PartFilled)] == taken["s" := Offer().(stage := PartFilled, filled := 1.0)];
  }

  lemma Booked(fs: FeeSchedule, m: Market, d: Desk, o: OmsOrder, x: Matched)
    requires x == MatchAll(d.book, LegacyOf(o), CALM) && Match(d.book, LegacyOf(o)).trades == x.trades != []
    requires o.user == LIQUIDATOR && !IsStop(o.otype)
    ensures
      var after := Serve(fs, m, d, Place(o, CALM));
      after.book == x.book && after.orders == SyncMakers(SyncTaker(d.orders[o.id := Queued(o)], o.id, x.order), o.side, x.trades)
  {
    hide MatchAll, Match, Required, SettleAll, SurplusAll, SyncMakers, SyncTaker;
  }

  lemma BuyerBooked(fs: FeeSchedule, m: Market, d: Desk)
    requires d.book == BookArmed() && d.orders == map["s" := Queued(Offer()), "t" := Queued(StopBuy())]
    ensures
      var after := Serve(fs, m, d, Place(Buyer(), CALM));
      after.book == BookWaiting() && after.orders == RecordsAfter()
  {
    hide MatchAll, Match, Serve, BookArmed, BookWaiting, SyncMakers, SyncTaker, RecordsAfter;
    BuyerTrades();
    Booked(fs, m, d, Buyer(), MatchAll(d.book, LegacyOf(Buyer()), CALM));
    Synced();
    assert d.orders["b" := Queued(Buyer())] == map["s" := Queued(Offer()), "t" := Queued(StopBuy()), "b" := Queued(Buyer())];
  }

  /** After this run two have been bought of the offer and its book is empty; the register has one of the
      offer open, and the stop order waiting in the queue with nothing filled. */
  lemma StopRunParts(fs: FeeSchedule, m: Market)
    requires SpotMarket(m)
    ensures
      var d := TellAll(fs, m, START, StopRun(m)).desk;
      d.book.Queue(Buy) == [] && d.book.Queue(Sell) == [] && d.orders == RecordsAfter()
  {
    hide Serve, MatchAll, Match, Reported;
    var rs := StopRun(m);
    var s1 := Tell(fs, m, START, rs[0]);
    var s2 := Tell(fs, m, s1, rs[1]);
    var s3 := Tell(fs, m, s2, rs[2]);
    var s4 := Tell(fs, m, s3, rs[3]);
    Unrolled(fs, m, rs);
    SellerDeposits(fs, m);
    OfferRests(fs, m, s1.desk);
    StopArms(fs, m, s2.desk);
    BuyerBooked(fs, m, s3.desk);
    StopTrades();
    Launched(fs, m, s4.desk);
  }

  lemma SellerDeposits(fs: FeeSchedule, m: Market)
    ensures
      var d := Serve(fs, m, START.desk, DepositFunds(SELLER, m.base, 2.0));
      d.book == NO_ORDERS && d.orders == map[] && d.funds.Balance(SELLER, m.base) == 2.0 && d.funds.Held(SELLER, m.base) == 0.0
  {}

  lemma Launched(fs: FeeSchedule, m: Market, d: Desk)
    requires d.book == BookWaiting()
    ensures Serve(fs, m, d, StopRuns(0)) == d.(book := Match(Launch(BookWaiting(), 0), BookWaiting().watch.pending[0]).book)
  {
    hide Match;
  }

  // ---------------------------------------------------------------------------
  // Arming
  // ---------------------------------------------------------------------------

  /** An accepted stop, stop-limit, take-profit or take-profit-limit order is armed behind the others, at its
      stop price, or at its price when it names no stop price; it meets nothing, whatever rests. */
  lemma StopIsArmed(fs: FeeSchedule, m: Market, d: Desk, o: OmsOrder, a: Answers)
    requires Accepts(fs, m, d, o, a) && (o.otype.Stop? || o.otype.StopLimit? || o.otype.TakeProfit? || o.otype.TakeProfitLimit?)
    ensures
      var after := Process(fs, m, d, o, a).book;
      var trigger := if o.stopPrice == 0.0 then o.price else o.stopPrice;
      after.bids == d.book.bids && after.asks == d.book.asks && after.watch.pending == d.book.watch.pending &&
      after.watch.stops == d.book.watch.stops +
        [OrderView(o.id, o.user, o.side, o.otype, trigger, o.qty, o.filled, New, o.tif, o.postOnly)]
  {
    hide Accepts, Reserve;
  }

  /** Limit and market orders are not armed. */
  lemma OthersAreNotArmed(t: OrderType)
    ensures IsStop(t) <==> !t.Limit? && !t.Market?
  {}
}
