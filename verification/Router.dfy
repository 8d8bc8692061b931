/** The order router: it owns the matcher, the risk engine, the execution engine and the state
    machine, and drives them step by step.  Its two operations are proved to do what `Process` and
    `Withdraw` say of the desk the four engines make up together. */
module Router {
  import opened Book
  import opened BookInvariant
  import opened Modifiers
  import opened BookQueues
  import opened Matching
  import opened Accounts
  import opened Execution
  import opened OmsState
  import opened Desk
  import opened DeskRuns
  import opened DeskQueues
  import opened OmsAgreement

  /** Every order of the book is tracked by the state machine. */
  ghost predicate Tracked(orders: Register, b: BookView) {
    Everywhere(b, (r: OrderView) => r.id in orders)
  }

  lemma TrackedGrows(orders: Register, orders': Register, b: BookView)
    requires Tracked(orders, b) && orders.Keys <= orders'.Keys
    ensures Tracked(orders', b)
  {}

  lemma TrackedIsCarried(orders: Register)
    ensures Carried((r: OrderView) => r.id in orders)
  {}

  lemma EmptyBook(b: BookView, orders: Register)
    requires b == BookView(CancelNewest, [], [], Watch([], [], 0.0, 0))
    ensures SoundBook(b) && Tracked(orders, b)
  {}

  lemma StaysHome(b: BookView, o: OrderView, a: Answers)
    ensures !GoesOut(Match(b, o).order, a) ==> MatchAll(b, o, a) == Match(b, o)
  {}

  /** After a match, cancelling the incoming order's name leaves it on no level. */
  lemma CancelledGone(b: BookView, o: OrderView)
    requires SoundBook(b) && OrderOk(o) && !Refused(b, o) && Everywhere(b, (r: OrderView) => r.id != o.id)
    ensures
      var c := Book.Cancel(Match(b, o).book, o.id).0;
      !HasLevel(c.bids, o.id) && !HasLevel(c.asks, o.id)
  {
    hide Match, Refused, Sweep, BookInv, Flat, Insert, AllOk, Cancel, Without, Ripple;
    var p := (r: OrderView) => r.id != o.id;
    var x := Sweep(b.mode, o, b.Queue(o.side.Opposite()));
    MatchQueues(b, o);
    SweepCarries(b.mode, o, b.Queue(o.side.Opposite()), p);
    RippleCarries(b.watch, x.fills, p);
    SidesOk(b);
    var ahead, behind := InsertPriority(b.On(o.side), Match(b, o).order, o.side);
    assert Unnamed(b.Queue(o.side), o.id);
    PartsUnnamed(ahead, behind, o.id);
    WithoutMiddle(ahead, Match(b, o).order, behind);
    NoStopNamed(Match(b, o).book, o.id);
    var c := Book.Cancel(Match(b, o).book, o.id).0;
    FlatWithout(c.bids, o.id);
    FlatWithout(c.asks, o.id);
  }

  /** Cancelling a name no stop carries, on the two queues. */
  lemma NoStopNamed(b: BookView, id: string)
    requires Unnamed(b.watch.stops, id)
    ensures
      var c := Book.Cancel(b, id).0;
      c.Queue(Buy) == (if Has(b.Queue(Buy), id) then Without(b.Queue(Buy), id) else b.Queue(Buy)) &&
      c.Queue(Sell) == if !Has(b.Queue(Buy), id) && Has(b.Queue(Sell), id) then Without(b.Queue(Sell), id) else b.Queue(Sell)
  {
    FlatWithout(b.bids, id);
    FlatWithout(b.asks, id);
  }

  lemma CancelMissed(b: BookView, id: string)
    ensures !Book.Cancel(b, id).1 ==> Book.Cancel(b, id).0 == b
  {}

  lemma FreshEverywhere(orders: Register, b: BookView, id: string)
    requires Tracked(orders, b) && id !in orders
    ensures Everywhere(b, (r: OrderView) => r.id != id)
  {}

  lemma ClearSame(fs: FeeSchedule, m: Market, d: Desk, o: OmsOrder, a: Answers)
    requires o.id in d.orders
    ensures Clear(fs, m, d, o, a) == Clear(fs, m, d, o, Answers(Entered, true, true, a.external))
  {
    hide Match, SettleAll, SyncMakers, SyncTaker, SurplusAll, Cancel, Rest, ExtSweep;
  }

  /** One submission keeps the book sound and tracked. */
  lemma ProcessKeeps(fs: FeeSchedule, m: Market, d: Desk, o: OmsOrder, a: Answers)
    requires SoundBook(d.book) && Tracked(d.orders, d.book) && o.id !in d.orders && 0.0 <= o.filled <= o.qty
    ensures
      var after := Process(fs, m, d, o, a);
      SoundBook(after.book) && Tracked(after.orders, after.book)
  {
    hide Match, MatchAll, SettleAll, SoundBook, Everywhere, Reserve, CanReserve, SyncMakers, SyncTaker, SurplusAll;
    ServeSound(fs, m, d, Place(o, a));
    var orders := d.orders[o.id := o.(stage := Queued)];
    TrackedGrows(d.orders, orders, d.book);
    TrackedGrows(d.orders, d.orders[o.id := o.(stage := StageReached(a))], d.book);
    TrackedIsCarried(orders);
    MatchAllCarries(d.book, LegacyOf(o), a, (r: OrderView) => r.id in orders);
    var all := MatchAll(d.book, LegacyOf(o), a);
    var taken := SyncTaker(orders, o.id, all.order);
    TakerKeys(orders, o.id, all.order);
    SyncKeepsKeys(taken, o.side, Match(d.book, LegacyOf(o)).trades);
    TrackedGrows(orders, SyncMakers(taken, o.side, Match(d.book, LegacyOf(o)).trades), all.book);
    StopTracked(orders, d.book, LegacyOf(o).(price := TriggerPrice(o)));
  }

  lemma TakerKeys(orders: Register, id: string, o: OrderView)
    requires id in orders
    ensures SyncTaker(orders, id, o).Keys == orders.Keys
  {}

  lemma StopTracked(orders: Register, b: BookView, o: OrderView)
    requires Tracked(orders, b) && o.id in orders
    ensures Tracked(orders, AddStop(b, o))
  {}

  lemma WithdrawKeeps(fs: FeeSchedule, d: Desk, id: string, unstored: bool)
    requires SoundBook(d.book) && Tracked(d.orders, d.book)
    ensures
      var after := Withdraw(fs, d, id, unstored);
      SoundBook(after.book) && Tracked(after.orders, after.book)
  {
    hide SoundBook, Everywhere, Cancel, ReleaseOpen;
    CancelSound(d.book, id);
    CancelCarries(d.book, id, (r: OrderView) => r.id in d.orders);
    TrackedGrows(d.orders, Move(d.orders, id, Withdrawn), Book.Cancel(d.book, id).0);
  }

  class OMSRouter {
    const market: Market
    const matcher: Matcher
    const risk: RiskEngine
    const execution: ExecutionEngine
    const stateMachine: OMSStateMachine

    constructor (market: Market, fees: FeeSchedule)
      ensures Valid() && this.market == market && execution.fees == fees
      ensures DeskOf() == Desk(BookView(CancelNewest, [], [], Watch([], [], 0.0, 0)), Funds(map[], map[]), map[], 0.0, map[])
    {
      hide Views, Levels;
      var r := new RiskEngine();
      var e := new ExecutionEngine(fees, r);
      var m := new Matcher();
      var s := new OMSStateMachine();
      this.market, risk, execution, matcher, stateMachine := market, r, e, m, s;
      new;
      EmptyBook(matcher.BookOf(), stateMachine.activeOrders);
    }

    ghost function DeskOf(): Desk
      reads matcher, matcher.stopOrders, matcher.pending, OrdersOf(matcher.bids), OrdersOf(matcher.asks), risk, stateMachine
    {
      Desk(matcher.BookOf(), risk.FundsOf(), stateMachine.activeOrders, risk.Fund(market.quote), risk.userLeverages)
    }

    ghost predicate Valid()
      reads matcher, matcher.stopOrders, matcher.pending, OrdersOf(matcher.bids), OrdersOf(matcher.asks), stateMachine
    {
      execution.risk == risk && matcher.Valid() && SoundBook(matcher.BookOf()) &&
      Tracked(stateMachine.activeOrders, matcher.BookOf())
    }

    predicate Affords(order: OmsOrder, funds: Funds)
      reads risk`userLeverages
    {
      var (asset, amount) := Required(execution.fees, market, risk.userLeverages, order);
      funds.Balance(order.user, asset) - funds.Held(order.user, asset) >= amount
    }

    function Reserving(order: OmsOrder, funds: Funds): Funds
      reads risk`userLeverages
    {
      var (asset, amount) := Required(execution.fees, market, risk.userLeverages, order);
      if order.user == LIQUIDATOR then funds else funds.Hold(order.user, asset, amount)
    }

    /** The balance check and reservation of the pre-trade risk step. */
    method ValidateOrder(order: OmsOrder, admitted: bool) returns (ok: bool)
      requires execution.risk == risk
      modifies risk`activeHolds
      ensures ok <==> order.user == LIQUIDATOR || (admitted && Affords(order, old(risk.FundsOf())))
      ensures risk.FundsOf() == if ok then Reserving(order, old(risk.FundsOf())) else old(risk.FundsOf())
    {
      hide Put, At, CostOf, MarginOf, LeverageOf;
      if order.user == LIQUIDATOR { return true; }
      if !admitted { return false; }
      var maker, taker := GetFeeRates(execution.fees, order.user);
      var rate := if order.postOnly then maker else taker;
      if market.futures {
        ok := risk.TryHold(order.user, market.quote, MarginOf(order.qty, order.price, LeverageOf(risk.userLeverages, order.user, market)));
      } else if order.side == Buy {
        ok := risk.TryHold(order.user, market.quote, CostOf(order.qty, order.price, rate));
      } else {
        ok := risk.TryHold(order.user, market.base, order.qty);
      }
    }

    /** Local match, then the external book for what is still open, then back to the local book. */
    method MatchEverywhere(order: Order, external: seq<ExtLevel>) returns (matches: seq<Trade>, all: seq<Trade>)
      requires matcher.Valid() && SoundBook(matcher.BookOf()) && order.place == Nowhere && OrderOk(order.View())
      requires Everywhere(matcher.BookOf(), (r: OrderView) => r.id != order.id)
      modifies matcher, order, OrdersOf(matcher.bids), OrdersOf(matcher.asks), matcher.stopOrders
      ensures matcher.Valid()
      ensures
        var b, o := old(matcher.BookOf()), old(order.View());
        var a := Answers(Entered, true, true, external);
        Matched(matcher.BookOf(), order.View(), all) == MatchAll(b, o, a) && matches == Match(b, o).trades
    {
      hide Match, MatchAll, Views, Levels, SideOk, BookInv, Everywhere;
      ghost var b, o := matcher.BookOf(), order.View();
      matches := matcher.MatchOrder(order);
      all := matches;
      StaysHome(b, o, Answers(Entered, true, true, external));
      if order.filled < order.qty && order.status != Cancelled && order.status != Rejected && external != [] {
        all := GoOut(order, external, matches, b, o);
      }
    }

    /** The part of the match on the external book: off the local book, along the levels, and back. */
    method GoOut(order: Order, external: seq<ExtLevel>, matches: seq<Trade>, ghost b: BookView, ghost o: OrderView)
      returns (all: seq<Trade>)
      requires matcher.Valid() && (order.place == Booked || order.place == Done)
      requires SoundBook(b) && OrderOk(o) && Everywhere(b, (r: OrderView) => r.id != o.id)
      requires Matched(matcher.BookOf(), order.View(), matches) == Match(b, o)
      requires GoesOut(order.View(), Answers(Entered, true, true, external))
      modifies matcher, order
      ensures matcher.Valid()
      ensures Matched(matcher.BookOf(), order.View(), all) == MatchAll(b, o, Answers(Entered, true, true, external))
    {
      hide Match, Refused, Views, Levels, SideOk, BookInv, Cancel, ExtSweep, Crosses, Rest, Everywhere, HasLevel, Matcher.Valid, Matcher.BookOf;
      if Refused(b, o) { RefusedMatch(b, o); }
      CancelledGone(b, o);
      MatchSound(b, o);
      SameTermsAfter(b, o);
      ExtKeepsTerms(order.View(), external);
      var _ := matcher.CancelOrder(order.id);
      matcher.Reclaim(order);
      var out := TakeElsewhere(order, external);
      all := matches + out;
      if order.filled < order.qty && order.otype == Limit {
        matcher.AddOrderToBookDirect(order);
      }
    }

    method TakeElsewhere(order: Order, external: seq<ExtLevel>) returns (out: seq<Trade>)
      requires matcher.Valid() && order.place == Nowhere
      modifies order`filled, order`status
      ensures matcher.Valid() && matcher.BookOf() == old(matcher.BookOf())
      ensures ExtOutcome(order.View(), out) == ExtSweep(old(order.View()), external)
    {
      matcher.StrangerApart(order);
      hide Views, Levels, SideOk, ExtSweep;
      out := TakeExternal(order, external);
    }

    /** Surplus and loss of the liquidation engine's fills, booked on the insurance fund. */
    method BookSurplus(trades: seq<Trade>)
      modifies risk`insuranceFund
      ensures risk.Fund(market.quote) == old(risk.Fund(market.quote)) + SurplusAll(stateMachine.activeOrders, trades)
    {
      hide Gain;
      ghost var start, orders := risk.Fund(market.quote), stateMachine.activeOrders;
      assert trades[0..] == trades;
      for i := 0 to |trades|
        invariant risk.Fund(market.quote) + SurplusAll(orders, trades[i..]) == start + SurplusAll(orders, trades)
      {
        var t := trades[i];
        assert trades[i..][0] == t && trades[i..][1..] == trades[i + 1..];
        if t.buyerId == LIQUIDATOR || t.sellerId == LIQUIDATOR {
          var id := if t.sellerId == LIQUIDATOR then t.sellOrderId else t.buyOrderId;
          if id in stateMachine.activeOrders {
            var bankruptcy := stateMachine.activeOrders[id].price;
            if t.sellerId == LIQUIDATOR {
              risk.AddInsuranceFundReserves(market.quote, Gain(t.price - bankruptcy, t.qty));
            } else {
              risk.AddInsuranceFundReserves(market.quote, Gain(bankruptcy - t.price, t.qty));
            }
          }
        }
      }
    }

    /** A move whose answer nobody looks at, so it makes no difference whether it was stored. */
    method MoveOn(id: string, next: Stage)
      modifies stateMachine`activeOrders, stateMachine`auditLogs
      ensures stateMachine.activeOrders == Move(old(stateMachine.activeOrders), id, next)
    {
      var unstored: bool := *;
      var _ := stateMachine.TransitionOrder(id, next, unstored);
    }

    /** Filled quantities and stages of the taker and of its local makers. */
    method SyncFills(order: OmsOrder, filled: real, status: Status, matches: seq<Trade>, ghost view: OrderView)
      requires order.id in stateMachine.activeOrders && view.filled == filled && view.status == status
      modifies stateMachine`activeOrders, stateMachine`auditLogs
      ensures stateMachine.activeOrders ==
        SyncMakers(SyncTaker(old(stateMachine.activeOrders), order.id, view), order.side, matches)
    {
      hide CanMove;
      stateMachine.SetFilled(order.id, filled);
      if status == Filled {
        MoveOn(order.id, FullyFilled);
      } else if status == PartiallyFilled {
        MoveOn(order.id, PartFilled);
      }
      ghost var taken := stateMachine.activeOrders;
      assert matches[0..] == matches;
      for i := 0 to |matches|
        invariant SyncMakers(stateMachine.activeOrders, order.side, matches[i..]) == SyncMakers(taken, order.side, matches)
      {
        assert matches[i..][0] == matches[i] && matches[i..][1..] == matches[i + 1..];
        SyncOneMaker(order.side, matches[i]);
      }
    }

    method SyncOneMaker(side: Side, t: Trade)
      modifies stateMachine`activeOrders, stateMachine`auditLogs
      ensures stateMachine.activeOrders == SyncMaker(old(stateMachine.activeOrders), side, t)
    {
      hide CanMove;
      var id := if side == Sell then t.buyOrderId else t.sellOrderId;
      if id in stateMachine.activeOrders {
        var filled := stateMachine.activeOrders[id].filled + t.qty;
        var qty := stateMachine.activeOrders[id].qty;
        stateMachine.SetFilled(id, filled);
        MoveOn(id, if filled >= qty then FullyFilled else PartFilled);
      }
    }

    /** Submission up to the validation checks. */
    method Enter(order: OmsOrder, entry: Entry) returns (ok: bool)
      modifies stateMachine`activeOrders, stateMachine`auditLogs
      ensures ok <==> entry.Entered?
      ensures stateMachine.activeOrders ==
        old(stateMachine.activeOrders)[order.id := order.(stage := if entry.Unsaved? then Created else PendingValidation)]
    {
      ok := stateMachine.SubmitOrder(order, entry == Unsaved);
      if !ok { return; }
      ok := stateMachine.TransitionOrder(order.id, PendingValidation, entry == Unmoved);
    }

    method Decline(order: OmsOrder)
      requires order.id in stateMachine.activeOrders && stateMachine.activeOrders[order.id] == order.(stage := PendingValidation)
      modifies stateMachine`activeOrders, stateMachine`auditLogs
      ensures stateMachine.activeOrders == old(stateMachine.activeOrders)[order.id := order.(stage := Declined)]
    {
      MoveOn(order.id, Declined);
    }

    /** From the passed checks to the queue. */
    method Accept(order: OmsOrder)
      requires order.id in stateMachine.activeOrders && stateMachine.activeOrders[order.id] == order.(stage := PendingValidation)
      modifies stateMachine`activeOrders, stateMachine`auditLogs
      ensures stateMachine.activeOrders == old(stateMachine.activeOrders)[order.id := order.(stage := Queued)]
    {
      MoveOn(order.id, Validated);
      MoveOn(order.id, Accepted);
      MoveOn(order.id, Queued);
    }

    /** Registration, validation, reservation, and admission to the queue. */
    method CheckAndHold(order: OmsOrder, a: Answers) returns (ok: bool)
      requires execution.risk == risk
      modifies risk`activeHolds, stateMachine`activeOrders, stateMachine`auditLogs
      ensures ok <==> a.entry.Entered? && a.rulesOk && (order.user == LIQUIDATOR || (a.admitted && Affords(order, old(risk.FundsOf()))))
      ensures risk.FundsOf() == if ok then Reserving(order, old(risk.FundsOf())) else old(risk.FundsOf())
      ensures stateMachine.activeOrders ==
        old(stateMachine.activeOrders)[order.id := order.(stage := if ok then Queued else StageReached(a))]
    {
      hide Affords, Reserving;
      ok := Enter(order, a.entry);
      if !ok { return; }
      ok := a.rulesOk;
      if ok {
        ok := ValidateOrder(order, a.admitted);
      }
      if ok {
        Accept(order);
      } else {
        Decline(order);
      }
    }

    /** The same, next to a book that is not touched. */
    method Screen(order: OmsOrder, a: Answers) returns (ok: bool)
      requires execution.risk == risk && matcher.Valid()
      modifies risk`activeHolds, stateMachine`activeOrders, stateMachine`auditLogs
      ensures matcher.Valid() && matcher.BookOf() == old(matcher.BookOf())
      ensures ok <==> a.entry.Entered? && a.rulesOk && (order.user == LIQUIDATOR || (a.admitted && Affords(order, old(risk.FundsOf()))))
      ensures risk.FundsOf() == if ok then Reserving(order, old(risk.FundsOf())) else old(risk.FundsOf())
      ensures stateMachine.activeOrders ==
        old(stateMachine.activeOrders)[order.id := order.(stage := if ok then Queued else StageReached(a))]
    {
      hide Views, Levels, SideOk, Affords, Reserving;
      assert forall o :: o in OrdersOf(matcher.bids) ==> allocated(o);
      assert forall o :: o in OrdersOf(matcher.asks) ==> allocated(o);
      ok := CheckAndHold(order, a);
    }

    method NewLegacy(order: OmsOrder, price: real) returns (legacy: Order)
      requires matcher.Valid()
      ensures fresh(legacy) && legacy.place == Nowhere && legacy.View() == LegacyOf(order).(price := price)
      ensures matcher.Valid() && matcher.BookOf() == old(matcher.BookOf())
    {
      hide Views, Levels, SideOk;
      assert forall o :: o in OrdersOf(matcher.bids) ==> allocated(o);
      assert forall o :: o in OrdersOf(matcher.asks) ==> allocated(o);
      legacy := new Order(order.id, order.user, order.side, order.otype, price, order.qty, order.filled, order.tif, order.postOnly);
    }

    /** Match a queued order and book its trades. */
    method ClearQueued(order: OmsOrder, external: seq<ExtLevel>)
      requires execution.risk == risk && matcher.Valid() && SoundBook(matcher.BookOf()) && 0.0 <= order.filled <= order.qty
      requires order.id in stateMachine.activeOrders
      requires Everywhere(matcher.BookOf(), (r: OrderView) => r.id != order.id)
      modifies matcher, OrdersOf(matcher.bids), OrdersOf(matcher.asks), matcher.stopOrders
      modifies risk`userBalances, risk`activeHolds, risk`insuranceFund, execution`executions
      modifies stateMachine`activeOrders, stateMachine`auditLogs
      ensures matcher.Valid()
      ensures DeskOf() == Clear(execution.fees, market, old(DeskOf()), order, Answers(Entered, true, true, external))
    {
      hide Match, MatchAll, Views, Levels, SideOk, Matcher.WatchOk, Matcher.WatchView, SettleAll, SyncMakers, SyncTaker, SurplusAll, SoundBook, Everywhere, Put;
      var legacy := NewLegacy(order, order.price);
      var matches, all := MatchEverywhere(legacy, external);
      if all != [] {
        BookTrades(order, legacy.filled, legacy.status, matches, all, legacy.View());
      }
    }

    /** Executions, insurance fund and fill states. */
    method BookEntries(order: OmsOrder, filled: real, status: Status, matches: seq<Trade>, all: seq<Trade>, ghost view: OrderView)
      requires execution.risk == risk
      requires order.id in stateMachine.activeOrders && view.filled == filled && view.status == status
      modifies risk`userBalances, risk`activeHolds, risk`insuranceFund, execution`executions
      modifies stateMachine`activeOrders, stateMachine`auditLogs
      ensures risk.FundsOf() == SettleAll(execution.fees, market, old(risk.FundsOf()), all)
      ensures risk.Fund(market.quote) == old(risk.Fund(market.quote)) + SurplusAll(old(stateMachine.activeOrders), all)
      ensures stateMachine.activeOrders ==
        SyncMakers(SyncTaker(old(stateMachine.activeOrders), order.id, view), order.side, matches)
    {
      hide SettleAll, ExecuteAll, SurplusAll, SyncMakers, SyncTaker;
      var _ := execution.ProcessTrades(all, market);
      BookSurplus(all);
      SyncFills(order, filled, status, matches, view);
    }

    /** The same, next to a book that is not touched. */
    method BookTrades(order: OmsOrder, filled: real, status: Status, matches: seq<Trade>, all: seq<Trade>, ghost view: OrderView)
      requires execution.risk == risk && matcher.Valid()
      requires order.id in stateMachine.activeOrders && view.filled == filled && view.status == status
      modifies risk`userBalances, risk`activeHolds, risk`insuranceFund, execution`executions
      modifies stateMachine`activeOrders, stateMachine`auditLogs
      ensures matcher.Valid() && matcher.BookOf() == old(matcher.BookOf())
      ensures risk.FundsOf() == SettleAll(execution.fees, market, old(risk.FundsOf()), all)
      ensures risk.Fund(market.quote) == old(risk.Fund(market.quote)) + SurplusAll(old(stateMachine.activeOrders), all)
      ensures stateMachine.activeOrders ==
        SyncMakers(SyncTaker(old(stateMachine.activeOrders), order.id, view), order.side, matches)
    {
      hide Views, Levels, SideOk, SettleAll, SurplusAll, SyncMakers, SyncTaker;
      assert forall o :: o in OrdersOf(matcher.bids) ==> allocated(o);
      assert forall o :: o in OrdersOf(matcher.asks) ==> allocated(o);
      BookEntries(order, filled, status, matches, all, view);
    }

    /** One submitted order, from registration to the last bookkeeping step. */
    method ProcessIncomingOrder(order: OmsOrder, answers: Answers) returns (ok: bool)
      requires Valid() && order.id !in stateMachine.activeOrders && 0.0 <= order.filled <= order.qty
      modifies matcher, OrdersOf(matcher.bids), OrdersOf(matcher.asks), matcher.stopOrders
      modifies risk`userBalances, risk`activeHolds, risk`insuranceFund, execution`executions
      modifies stateMachine`activeOrders, stateMachine`auditLogs
      ensures DeskOf() == Process(execution.fees, market, old(DeskOf()), order, answers)
      ensures ok <==> Accepts(execution.fees, market, old(DeskOf()), order, answers)
      ensures Valid()
    {
      hide Clear, Views, Levels, SideOk, Matcher.WatchOk, Matcher.WatchView, SoundBook, Everywhere, Tracked, Put, At, Required;
      ghost var d := DeskOf();
      ProcessKeeps(execution.fees, market, d, order, answers);
      FreshEverywhere(d.orders, d.book, order.id);
      ok := Screen(order, answers);
      if !ok { return; }
      if IsStop(order.otype) {
        var legacy := NewLegacy(order, TriggerPrice(order));
        matcher.AddStopOrder(legacy);
      } else {
        ghost var queued := DeskOf();
        ClearQueued(order, answers.external);
        ClearSame(execution.fees, market, queued, order, answers);
      }
    }

    /** One cancel request. */
    method CancelOrder(id: string, unstored: bool) returns (answer: Cancellation)
      requires Valid()
      modifies matcher, risk`activeHolds, stateMachine
      ensures DeskOf() == Withdraw(execution.fees, old(DeskOf()), id, unstored)
      ensures answer == Answered(old(DeskOf()), id, unstored)
      ensures Valid()
    {
      hide Views, Levels, SideOk, Matcher.WatchOk, Matcher.WatchView, SoundBook, Everywhere, Tracked, Put, At, Cancel, CostOf, CanMove;
      ghost var d := DeskOf();
      CancelMissed(d.book, id);
      WithdrawKeeps(execution.fees, d, id, unstored);
      if id !in stateMachine.activeOrders { return UnknownOrder; }
      var cancelled := matcher.CancelOrder(id);
      if !cancelled { return NotOnBook; }
      var moved := Conclude(id, unstored);
      answer := if moved then Freed else NotMoved;
    }

    /** After an order has left the book: its stage, and the release of its hold. */
    method ConcludeEntries(id: string, unstored: bool) returns (moved: bool)
      requires id in stateMachine.activeOrders
      modifies risk`activeHolds, stateMachine`activeOrders, stateMachine`auditLogs
      ensures
        var orders, funds := old(stateMachine.activeOrders), old(risk.FundsOf());
        var moves := CanMove(orders[id].stage, Withdrawn);
        moved == (moves && !unstored) &&
        stateMachine.activeOrders == (if moves then Move(orders, id, Withdrawn) else orders) &&
        risk.FundsOf() == if moved then ReleaseOpen(execution.fees, funds, orders[id]) else funds
    {
      hide CanMove, ReleaseOpen, Put;
      var order := stateMachine.activeOrders[id];
      moved := stateMachine.TransitionOrder(id, Withdrawn, unstored);
      if moved {
        ReleaseRest(order);
      }
    }

    /** The same, next to a book that is not touched. */
    method Conclude(id: string, unstored: bool) returns (moved: bool)
      requires matcher.Valid() && id in stateMachine.activeOrders
      modifies risk`activeHolds, stateMachine`activeOrders, stateMachine`auditLogs
      ensures matcher.Valid() && matcher.BookOf() == old(matcher.BookOf())
      ensures
        var orders, funds := old(stateMachine.activeOrders), old(risk.FundsOf());
        var moves := CanMove(orders[id].stage, Withdrawn);
        moved == (moves && !unstored) &&
        stateMachine.activeOrders == (if moves then Move(orders, id, Withdrawn) else orders) &&
        risk.FundsOf() == if moved then ReleaseOpen(execution.fees, funds, orders[id]) else funds
    {
      hide Views, Levels, SideOk, CanMove, Move, ReleaseOpen;
      assert forall o :: o in OrdersOf(matcher.bids) ==> allocated(o);
      assert forall o :: o in OrdersOf(matcher.asks) ==> allocated(o);
      moved := ConcludeEntries(id, unstored);
    }

    /** Release what is reserved for the unfilled part of an order. */
    method ReleaseRest(order: OmsOrder)
      modifies risk`activeHolds
      ensures risk.FundsOf() == ReleaseOpen(execution.fees, old(risk.FundsOf()), order)
    {
      hide Put, At, CostOf;
      var open := order.qty - order.filled;
      if open > 0.0 {
        if order.side == Buy {
          var maker, taker := GetFeeRates(execution.fees, order.user);
          risk.ReleaseHold(order.user, "USDT", CostOf(open, order.price, if order.postOnly then maker else taker));
        } else {
          risk.ReleaseHold(order.user, "BTC", open);
        }
      }
    }
  }

  /** Fill an order from the external levels, best first, while it crosses. */
  method TakeExternal(order: Order, levels: seq<ExtLevel>) returns (trades: seq<Trade>)
    modifies order`filled, order`status
    ensures ExtOutcome(order.View(), trades) == ExtSweep(old(order.View()), levels)
  {
    hide Crosses;
    ghost var start := order.View();
    trades := [];
    assert levels[0..] == levels;
    var i := 0;
    while i < |levels| && order.filled < order.qty
      invariant 0 <= i <= |levels|
      invariant
        var rest := ExtSweep(order.View(), levels[i..]);
        ExtSweep(start, levels) == ExtOutcome(rest.order, trades + rest.trades)
    {
      assert levels[i..][0] == levels[i] && levels[i..][1..] == levels[i + 1..];
      if !Crosses(order.View(), levels[i].price) { break; }
      var amount := Min(order.qty - order.filled, levels[i].qty);
      if amount > 0.0 {
        trades := trades + [ExtTrade(order.View(), levels[i], amount)];
        order.filled := order.filled + amount;
        order.status := if order.filled >= order.qty then Filled else PartiallyFilled;
      }
      i := i + 1;
    }
  }
}
