/** Runs of the order desk, and the book invariant through them. */
module DeskRuns {
  import opened Book
  import opened Priority
  import opened BookInvariant
  import opened Accounts
  import opened Execution
  import opened OmsState
  import opened Desk

  datatype Request =
    | Place(order: OmsOrder, answers: Answers)
    | Withdrawal(id: string, unstored: bool)
    | DepositFunds(user: string, asset: string, amount: real)
    | StopRuns(index: nat)        // a launched match of a triggered stop; its trades are not reported
    | UseMode(mode: STPMode)

  function Serve(fs: FeeSchedule, m: Market, d: Desk, r: Request): Desk {
    match r
    case Place(o, a) => Process(fs, m, d, o, a)
    case Withdrawal(id, unstored) => Withdraw(fs, d, id, unstored)
    case DepositFunds(u, asset, amount) => d.(funds := d.funds.Deposit(u, asset, amount))
    case StopRuns(i) =>
      if i < |d.book.watch.pending|
      then d.(book := Match(Launch(d.book, i), d.book.watch.pending[i]).book)
      else d
    case UseMode(mode) => d.(book := d.book.(mode := mode))
  }

  /** The trades a request reports to the router. */
  function Reported(fs: FeeSchedule, m: Market, d: Desk, r: Request): seq<Trade> {
    if !r.Place? || IsStop(r.order.otype) || !Accepts(fs, m, d, r.order, r.answers) then []
    else MatchAll(d.book, LegacyOf(r.order), r.answers).trades
  }

  function ServeAll(fs: FeeSchedule, m: Market, d: Desk, rs: seq<Request>): Desk
    decreases |rs|
  {
    if rs == [] then d else ServeAll(fs, m, Serve(fs, m, d, rs[0]), rs[1..])
  }

  /** A submission carries a fresh identifier and a sensible quantity. */
  predicate WellPosed(d: Desk, r: Request) {
    r.Place? ==> r.order.id !in d.orders && 0.0 <= r.order.filled <= r.order.qty
  }

  /** The book is sound, stops included. */
  predicate SoundBook(b: BookView) {
    BookInv(b) && AllOk(b.watch.stops) && AllOk(b.watch.pending)
  }

  lemma MatchSound(b: BookView, o: OrderView)
    requires SoundBook(b) && OrderOk(o)
    ensures SoundBook(Match(b, o).book) && OrderOk(Match(b, o).order)
  {
    hide Match, BookInv;
    MatchKeeps(b, o);
    MatchKeepsStops(b, o);
  }

  lemma CancelSound(b: BookView, id: string)
    requires SoundBook(b)
    ensures SoundBook(Book.Cancel(b, id).0)
  {
    hide BookInv, Cancel;
    CancelKeeps(b, id);
    CancelWatch(b, id);
    WithoutOk(b.watch.stops, id);
  }

  /** An order that goes out to the external book has left nothing behind that it could trade with. */
  lemma LeftClear(b: BookView, o: OrderView)
    requires BookInv(b) && OrderOk(o)
    requires
      var t := Match(b, o).order;
      t.filled < t.qty && !t.status.Cancelled? && !t.status.Rejected?
    ensures
      var opposite := Match(b, o).book.On(o.side.Opposite());
      (opposite == [] || !Crosses(o, opposite[0].price)) && SameTerms(o, Match(b, o).order) &&
      !o.tif.IOC?
  {
    SweptSide(b.mode, o, b.On(o.side.Opposite()));
    SweptStopped(b.mode, o, b.On(o.side.Opposite()));
    var s := SweepLevels(b.mode, o, b.On(o.side.Opposite()));
    if !Refused(b, o) && !s.stopped && s.taker.Open() > 0.0 {
      SweptClear(b.mode, o, b.On(o.side.Opposite()));
    }
  }

  lemma {:induction false} SweepStopped(mode: STPMode, t: OrderView, q: seq<OrderView>)
    ensures Sweep(mode, t, q).stopped ==> Sweep(mode, t, q).taker.status.Cancelled?
    decreases |q|
  {
    if q != [] {
      SweepStopped(mode, NextTaker(mode, t, q[0]), q[1..]);
    }
  }

  /** An order stopped by self-trade prevention is cancelled. */
  lemma {:induction false} SweptStopped(mode: STPMode, t: OrderView, levels: seq<Level>)
    ensures SweepLevels(mode, t, levels).stopped ==> SweepLevels(mode, t, levels).taker.status.Cancelled?
    decreases |levels|
  {
    if levels != [] {
      SweepStopped(mode, t, levels[0].orders);
      SweptStopped(mode, Sweep(mode, t, levels[0].orders).taker, levels[1..]);
    }
  }

  lemma {:induction false} ExtKeepsTerms(t: OrderView, levels: seq<ExtLevel>)
    requires OrderOk(t)
    ensures SameTerms(t, ExtSweep(t, levels).order) && OrderOk(ExtSweep(t, levels).order)
    decreases |levels|
  {
    if levels != [] && t.Open() > 0.0 && Crosses(t, levels[0].price) {
      var amount := Min(t.Open(), levels[0].qty);
      if amount <= 0.0 {
        ExtKeepsTerms(t, levels[1..]);
      } else {
        ExtKeepsTerms(t.(filled := t.filled + amount,
                         status := if t.filled + amount >= t.qty then Filled else PartiallyFilled), levels[1..]);
      }
    }
  }

  /** Cancelling never makes the opposite side cross. */
  lemma CancelStaysClear(b: BookView, id: string, o: OrderView)
    requires BookInv(b)
    requires b.On(o.side.Opposite()) == [] || !Crosses(o, b.On(o.side.Opposite())[0].price)
    ensures
      var after := Book.Cancel(b, id).0.On(o.side.Opposite());
      after == [] || !Crosses(o, after[0].price)
  {
    WithoutLevelBest(b.bids, id, Buy);
    WithoutLevelBest(b.asks, id, Sell);
  }

  /** Going out and coming back keeps the book sound. */
  lemma MatchAllSound(b: BookView, o: OrderView, a: Answers)
    requires SoundBook(b) && OrderOk(o)
    ensures SoundBook(MatchAll(b, o, a).book)
  {
    hide Match, BookInv, Cancel, Rest, ExtSweep;
    var m := Match(b, o);
    MatchSound(b, o);
    if GoesOut(m.order, a) {
      var x := ExtSweep(m.order, a.external);
      var b1 := Book.Cancel(m.book, o.id).0;
      ExtKeepsTerms(m.order, a.external);
      CancelSound(m.book, o.id);
      if x.order.filled < x.order.qty && x.order.otype.Limit? {
        LeftClear(b, o);
        CancelStaysClear(m.book, o.id, o);
        RestKeepsIff(b1, x.order);
        RestWatch(b1, x.order);
      }
    }
  }

  lemma RestWatch(b: BookView, o: OrderView)
    ensures Rest(b, o).watch.stops == b.watch.stops && Rest(b, o).watch.pending == b.watch.pending
  {}

  lemma ServeSound(fs: FeeSchedule, m: Market, d: Desk, r: Request)
    requires SoundBook(d.book) && WellPosed(d, r)
    ensures SoundBook(Serve(fs, m, d, r).book)
  {
    hide BookInv, Match, MatchAll, Cancel, SettleAll, SyncMakers, SyncTaker, Reserve, CanReserve;
    match r
    case Place(o, a) => MatchAllSound(d.book, LegacyOf(o), a); StopSound(d.book, LegacyOf(o).(price := TriggerPrice(o)));
    case Withdrawal(id, _) => CancelSound(d.book, id);
    case DepositFunds(_, _, _) =>
    case StopRuns(i) =>
      if i < |d.book.watch.pending| { LaunchSound(d.book, i); }
    case UseMode(mode) => ModeSound(d.book, mode);
  }

  lemma StopSound(b: BookView, o: OrderView)
    requires SoundBook(b) && OrderOk(o)
    ensures SoundBook(AddStop(b, o))
  {}

  lemma ModeSound(b: BookView, mode: STPMode)
    requires SoundBook(b)
    ensures SoundBook(b.(mode := mode))
  {}

  lemma LaunchSound(b: BookView, i: nat)
    requires SoundBook(b) && i < |b.watch.pending|
    ensures SoundBook(Match(Launch(b, i), b.watch.pending[i]).book)
  {
    hide Match;
    assert OrderOk(b.watch.pending[i]);
    MatchSound(Launch(b, i), b.watch.pending[i]);
  }

  // ---------------------------------------------------------------------------
  // Post-only orders and the external book
  // ---------------------------------------------------------------------------

  /** Is there anything in the external levels that the order would take? */
  predicate Reaches(t: OrderView, levels: seq<ExtLevel>) {
    exists k :: 0 <= k < |levels| && levels[k].qty > 0.0 && forall i :: 0 <= i <= k ==> Crosses(t, levels[i].price)
  }

  lemma ReachesTail(t: OrderView, levels: seq<ExtLevel>)
    requires levels != [] && levels[0].qty <= 0.0 && Crosses(t, levels[0].price)
    ensures Reaches(t, levels) <==> Reaches(t, levels[1..])
  {
    if Reaches(t, levels) {
      var k :| 0 <= k < |levels| && levels[k].qty > 0.0 && forall i :: 0 <= i <= k ==> Crosses(t, levels[i].price);
      assert levels[1..][k - 1] == levels[k];
      forall i | 0 <= i <= k - 1 ensures Crosses(t, levels[1..][i].price) { assert levels[1..][i] == levels[i + 1]; }
    }
    if Reaches(t, levels[1..]) {
      var k :| 0 <= k < |levels[1..]| && levels[1..][k].qty > 0.0 && forall i :: 0 <= i <= k ==> Crosses(t, levels[1..][i].price);
      assert levels[k + 1] == levels[1..][k];
      forall i | 0 <= i <= k + 1 ensures Crosses(t, levels[i].price) { if i > 0 { assert levels[i] == levels[1..][i - 1]; } }
    }
  }

  lemma {:induction false} ExtTradesIff(t: OrderView, levels: seq<ExtLevel>)
    requires t.Open() > 0.0
    ensures ExtSweep(t, levels).trades != [] <==> Reaches(t, levels)
    decreases |levels|
  {
    if levels != [] && Crosses(t, levels[0].price) && levels[0].qty <= 0.0 {
      ReachesTail(t, levels);
      ExtTradesIff(t, levels[1..]);
    } else if levels != [] && Crosses(t, levels[0].price) {
      assert Min(t.Open(), levels[0].qty) > 0.0;
      assert levels[0].qty > 0.0 && forall i :: 0 <= i <= 0 ==> Crosses(t, levels[i].price);
    }
  }

  /** Post-only holds against the local book alone: an accepted post-only limit order trades exactly when
      it reaches an external level, because the external walk does not ask. */
  lemma PostOnlyTakesOutsideIff(b: BookView, o: OrderView, a: Answers)
    requires BookInv(b) && OrderOk(o) && o.postOnly && o.otype.Limit? && o.status.New?
    ensures MatchAll(b, o, a).trades != [] <==>
      !Refused(b, o) && o.Open() > 0.0 && !o.tif.IOC? && Reaches(o, a.external)
  {
    hide ExtSweep, Reaches, Refused, Crosses;
    var m := Match(b, o);
    PostOnlyAlone(b, o);
    if !Refused(b, o) && o.Open() > 0.0 { ExtTradesIff(o, a.external); NothingReached(o); }
  }

  /** An empty book, and a post-only buy at 10 that takes one from the external level at 10. */
  lemma PostOnlyTakes(o: OrderView, a: Answers)
    requires o == OrderView("b1", "ann", Buy, Limit, 10.0, 1.0, 0.0, New, GTC, true)
    requires a == Answers(Entered, true, true, [ExtLevel(10.0, 1.0)])
    ensures MatchAll(BookView(CancelNewest, [], [], Watch([], [], 0.0, 0)), o, a).trades != []
  {
    hide MatchAll;
    var b := BookView(CancelNewest, [], [], Watch([], [], 0.0, 0));
    assert a.external[0].qty > 0.0 && forall i :: 0 <= i <= 0 ==> Crosses(o, a.external[i].price);
    PostOnlyTakesOutsideIff(b, o, a);
  }

  lemma NothingReached(t: OrderView)
    ensures !Reaches(t, [])
  {}

  lemma PostOnlyAlone(b: BookView, o: OrderView)
    requires BookInv(b) && OrderOk(o) && o.postOnly && o.otype.Limit?
    ensures
      var m := Match(b, o);
      m.trades == [] &&
      m.order == if Refused(b, o) then o.(status := Rejected)
                 else if o.Open() > 0.0 && o.tif.IOC? then o.(status := Cancelled) else o
  {}

  // ---------------------------------------------------------------------------
  // The external levels
  // ---------------------------------------------------------------------------

  /** A trade with an external level: at its price, for no more than it has, with the external counterparty. */
  predicate OutTrade(t: OrderView, l: ExtLevel, trade: Trade) {
    trade.price == l.price && 0.0 < trade.qty <= l.qty &&
    if t.side.Buy? then trade.buyerId == t.user && trade.sellerId == EXTERNAL && trade.buyOrderId == t.id
    else trade.sellerId == t.user && trade.buyerId == EXTERNAL && trade.sellOrderId == t.id
  }

  /** The external walk takes level after level: every trade is with its level, at a price the order accepts,
      and for all of it, but for the last. */
  lemma {:induction false} OutLevelByLevel(t: OrderView, levels: seq<ExtLevel>, k: nat)
    requires forall i :: 0 <= i < |levels| ==> levels[i].qty > 0.0
    ensures
      var x := ExtSweep(t, levels);
      |x.trades| <= |levels| &&
      (k < |x.trades| ==>
        OutTrade(t, levels[k], x.trades[k]) && Crosses(t, levels[k].price) &&
        (k + 1 < |x.trades| ==> x.trades[k].qty == levels[k].qty))
    decreases |levels|
  {
    if levels != [] && t.Open() > 0.0 && Crosses(t, levels[0].price) {
      var amount := Min(t.Open(), levels[0].qty);
      var next := t.(filled := t.filled + amount, status := if t.filled + amount >= t.qty then Filled else PartiallyFilled);
      OutLevelByLevel(next, levels[1..], if k == 0 then 0 else k - 1);
    }
  }

  /** It stops only when the order is complete, the levels are used up, or the next one does not cross; and an
      order that is not complete has taken all of every level it traded with. */
  lemma {:induction false} OutEnds(t: OrderView, levels: seq<ExtLevel>, k: nat)
    requires t.Open() > 0.0 && forall i :: 0 <= i < |levels| ==> levels[i].qty > 0.0
    ensures
      var x := ExtSweep(t, levels);
      |x.trades| <= |levels| && x.order.filled <= t.qty &&
      (x.order.filled < t.qty ==>
        (|x.trades| == |levels| || !Crosses(t, levels[|x.trades|].price)) &&
        (k < |x.trades| ==> x.trades[k].qty == levels[k].qty))
    decreases |levels|
  {
    if levels != [] && Crosses(t, levels[0].price) {
      var amount := Min(t.Open(), levels[0].qty);
      var next := t.(filled := t.filled + amount, status := if t.filled + amount >= t.qty then Filled else PartiallyFilled);
      if next.Open() > 0.0 {
        OutEnds(next, levels[1..], if k == 0 then 0 else k - 1);
      } else {
        assert ExtSweep(next, levels[1..]) == ExtOutcome(next, []);
      }
    }
  }

  /** What an order gains outside is what the trades say. */
  lemma {:induction false} OutGains(t: OrderView, levels: seq<ExtLevel>)
    ensures
      var x := ExtSweep(t, levels);
      x.order.filled == t.filled + TradedQty(x.trades) && x.order == t.(filled := x.order.filled, status := x.order.status)
    decreases |levels|
  {
    if levels != [] && t.Open() > 0.0 && Crosses(t, levels[0].price) {
      var amount := Min(t.Open(), levels[0].qty);
      if amount <= 0.0 {
        OutGains(t, levels[1..]);
      } else {
        var next := t.(filled := t.filled + amount, status := if t.filled + amount >= t.qty then Filled else PartiallyFilled);
        OutGains(next, levels[1..]);
        var rest := ExtSweep(next, levels[1..]).trades;
        assert ([ExtTrade(t, levels[0], amount)] + rest)[1..] == rest;
      }
    }
  }

  function TradedQty(trades: seq<Trade>): real { if trades == [] then 0.0 else trades[0].qty + TradedQty(trades[1..]) }
}
