/** What a hold exceeds the claims of the open orders by, to the last term: every request's change of it
    is an equation.  What is not released by trades and not claimed by open orders is never given back. */
module Excess {
  import opened Book
  import opened Priority
  import opened BookInvariant
  import opened BookQueues
  import opened Accounts
  import opened Execution
  import opened OmsState
  import opened Desk
  import opened DeskRuns
  import opened DeskQueues
  import opened OmsAgreement
  import opened Claims
  import opened Payments
  import opened Funding
  import opened Solvency

  // ---------------------------------------------------------------------------
  // The swept queue
  // ---------------------------------------------------------------------------

  /** What a trade releases of a user's hold on one of its sides. */
  function SideOwed(fs: FeeSchedule, m: Market, side: Side, t: Trade, user: string, asset: string): real {
    if side.Buy? then If(t.buyerId == user && asset == m.quote, Value(t) + BuyerRaw(fs, t))
    else If(t.sellerId == user && asset == m.base, t.qty)
  }

  function SideOwedAll(fs: FeeSchedule, m: Market, side: Side, trades: seq<Trade>, user: string, asset: string): real {
    if trades == [] then 0.0
    else SideOwed(fs, m, side, trades[0], user, asset) + SideOwedAll(fs, m, side, trades[1..], user, asset)
  }

  /** What self-trade prevention leaves of the claims of the orders it cancels. */
  function CancelledClaim(fs: FeeSchedule, m: Market, gone: seq<OrderView>, user: string, asset: string): real {
    if gone == [] then 0.0
    else If(gone[0].status.Cancelled?, OrderClaim(fs, m, gone[0], user, asset)) + CancelledClaim(fs, m, gone[1..], user, asset)
  }

  /** What a fill of a resting buy leaves: its cost at the rate it was reserved at, less the cost at the
      taker rate it is released at. */
  function Spread(fs: FeeSchedule, m: Market, r: OrderView, amount: real, user: string, asset: string): real {
    If(r.user == user && r.side.Buy? && asset == m.quote,
       CostOf(amount, r.price, ClaimRate(fs, r)) - CostOf(amount, r.price, fs.RatesOf(user).taker))
  }

  function SpreadAll(fs: FeeSchedule, m: Market, q: seq<OrderView>, after: seq<OrderView>, user: string, asset: string): real
    requires |after| == |q|
    decreases |q|
  {
    if q == [] then 0.0
    else Spread(fs, m, q[0], after[0].filled - q[0].filled, user, asset) + SpreadAll(fs, m, q[1..], after[1..], user, asset)
  }

  lemma NoSpread(fs: FeeSchedule, m: Market, r: OrderView, user: string, asset: string)
    ensures Spread(fs, m, r, 0.0, user, asset) == 0.0
  {}

  lemma {:induction false} NoSpreads(fs: FeeSchedule, m: Market, q: seq<OrderView>, user: string, asset: string)
    ensures SpreadAll(fs, m, q, q, user, asset) == 0.0
    decreases |q|
  {
    hide Spread;
    if q != [] {
      NoSpread(fs, m, q[0], user, asset);
      NoSpreads(fs, m, q[1..], user, asset);
    }
  }

  lemma SpreadPush(fs: FeeSchedule, m: Market, q: seq<OrderView>, head: OrderView, rest: seq<OrderView>, user: string, asset: string)
    requires q != [] && |rest| == |q| - 1
    ensures SpreadAll(fs, m, q, [head] + rest, user, asset) ==
      Spread(fs, m, q[0], head.filled - q[0].filled, user, asset) + SpreadAll(fs, m, q[1..], rest, user, asset)
  {
    hide Spread;
    assert ([head] + rest)[1..] == rest;
  }

  lemma CancelledPush(fs: FeeSchedule, m: Market, head: OrderView, gone: seq<OrderView>, user: string, asset: string)
    ensures CancelledClaim(fs, m, [head] + gone, user, asset) ==
      If(head.status.Cancelled?, OrderClaim(fs, m, head, user, asset)) + CancelledClaim(fs, m, gone, user, asset)
  {
    hide OrderClaim;
    assert ([head] + gone)[1..] == gone;
  }

  lemma SideOwedPush(fs: FeeSchedule, m: Market, side: Side, t: Trade, trades: seq<Trade>, user: string, asset: string)
    ensures SideOwedAll(fs, m, side, [t] + trades, user, asset) ==
      SideOwed(fs, m, side, t, user, asset) + SideOwedAll(fs, m, side, trades, user, asset)
  {
    hide SideOwed;
    assert ([t] + trades)[1..] == trades;
  }

  /** A fill of a resting order: its claim goes into what is left open, what is released, and the spread. */
  lemma FillAccount(fs: FeeSchedule, m: Market, t: OrderView, r: OrderView, amount: real, n: nat, user: string, asset: string)
    requires m.base != m.quote && r.side == t.side.Opposite()
    ensures OrderClaim(fs, m, r, user, asset) == OrderClaim(fs, m, r.Take(amount), user, asset) +
      SideOwed(fs, m, r.side, TradeOf(t, FillOf(r, amount), n), user, asset) + Spread(fs, m, r, amount, user, asset)
  {
    hide CostOf, LastTier, RawFee, Value, ClaimRate;
    var trade := TradeOf(t, FillOf(r, amount), n);
    TakeReduces(fs, m, r, amount, user, asset);
    CostIsPayment(trade, fs.RatesOf(user).taker);
    assert r.(filled := r.qty - amount).Open() == amount;
    FilledRate(fs, r, r.qty - amount);
  }

  lemma FilledRate(fs: FeeSchedule, r: OrderView, filled: real)
    ensures ClaimRate(fs, r.(filled := filled)) == ClaimRate(fs, r)
  {}

  /** What becomes of the head of the queue: at most one fill, and it goes or stays. */
  lemma HeadShape(mode: STPMode, t: OrderView, q: seq<OrderView>) returns (fills: seq<Fill>, gone: seq<OrderView>, stay: seq<OrderView>)
    requires q != [] && OrderOk(t) && 0.0 <= q[0].filled < q[0].qty
    ensures
      var r, head, next, x := q[0], HeadAfter(mode, t, q[0]), NextTaker(mode, t, q[0]), Sweep(mode, t, q);
      gone + stay == [head] && ((gone == [] && stay == [head]) || (gone == [head] && stay == [])) &&
      ((fills == [] && head.filled == r.filled && (head == r || head == r.(status := Cancelled)) && (gone != [] ==> head.status.Cancelled?)) ||
       (exists amount :: fills == [FillOf(r, amount)] && head == r.Take(amount) && (gone != [] ==> head.filled == head.qty))) &&
      if Steps(mode, t, q, head, next) then
        var y := Sweep(mode, next, q[1..]);
        stay == [] && x.fills == fills + y.fills && x.gone == gone + y.gone && x.queue == y.queue &&
        OrderOk(next) && Walk.SameDeal(t, next)
      else x.fills == fills && x.gone == gone && x.queue == stay + q[1..]
  {
    var r := q[0];
    var amount := Min(t.Open(), r.Open());
    if t.Open() <= 0.0 || !Crosses(t, r.price) {
      fills, gone, stay := [], [], [r];
    } else if SelfTrade(mode, t, r) {
      fills := [];
      assert [r.(status := Cancelled)] + [] == [r.(status := Cancelled)];
      if mode.CancelNewest? { gone, stay := [], [r]; } else { gone, stay := [r.(status := Cancelled)], []; }
    } else {
      fills := [FillOf(r, amount)];
      assert [FillOf(r, amount)] + [] == [FillOf(r, amount)] && [r.Take(amount)] + [] == [r.Take(amount)];
      if r.Take(amount).filled == r.qty { gone, stay := [r.Take(amount)], []; } else { gone, stay := [], [r.Take(amount)]; }
    }
  }

  /** The claim of the head of the queue, to the last term. */
  lemma HeadAccount(fs: FeeSchedule, m: Market, mode: STPMode, t: OrderView, r: OrderView, fills: seq<Fill>,
                    gone: seq<OrderView>, stay: seq<OrderView>, head: OrderView, n: nat, user: string, asset: string)
    requires m.base != m.quote && r.side == t.side.Opposite()
    requires (gone == [] && stay == [head]) || (gone == [head] && stay == [])
    requires (fills == [] && head.filled == r.filled && (head == r || head == r.(status := Cancelled)) && (gone != [] ==> head.status.Cancelled?)) ||
      (exists amount :: fills == [FillOf(r, amount)] && head == r.Take(amount) && (gone != [] ==> head.filled == head.qty))
    ensures OrderClaim(fs, m, r, user, asset) == QueueClaim(fs, m, stay, user, asset) +
      SideOwedAll(fs, m, t.side.Opposite(), TradesOf(t, fills, n), user, asset) +
      CancelledClaim(fs, m, gone, user, asset) + Spread(fs, m, r, head.filled - r.filled, user, asset)
  {
    hide OrderClaim, SideOwed, Spread, CancelledClaim, SideOwedAll, TradesOf, QueueClaim, TradeOf;
    NothingSwept(fs, m, t.side.Opposite(), user, asset);
    OnlyClaimed(fs, m, head, user, asset);
    CancelledPush(fs, m, head, [], user, asset);
    assert [head] + [] == [head];
    if fills == [] {
      NoTrades(t, n);
      NoSpread(fs, m, r, user, asset);
      StatusClaim(fs, m, r, Cancelled, user, asset);
    } else {
      var amount :| fills == [FillOf(r, amount)] && head == r.Take(amount) && (gone != [] ==> head.filled == head.qty);
      var f := FillOf(r, amount);
      FillAccount(fs, m, t, r, amount, n + 1, user, asset);
      assert [f] + [] == [f];
      FirstTrade(t, f, [], n);
      NoTrades(t, n + 1);
      SideOwedPush(fs, m, t.side.Opposite(), TradeOf(t, f, n + 1), [], user, asset);
      if gone != [] { FilledClaim(fs, m, head, user, asset); }
    }
  }

  lemma NothingSwept(fs: FeeSchedule, m: Market, side: Side, user: string, asset: string)
    ensures SideOwedAll(fs, m, side, [], user, asset) == 0.0 && CancelledClaim(fs, m, [], user, asset) == 0.0
    ensures QueueClaim(fs, m, [], user, asset) == 0.0
  {}

  lemma OnlyClaimed(fs: FeeSchedule, m: Market, r: OrderView, user: string, asset: string)
    ensures QueueClaim(fs, m, [r], user, asset) == OrderClaim(fs, m, r, user, asset)
  {
    assert [r][1..] == [];
  }

  lemma FilledClaim(fs: FeeSchedule, m: Market, r: OrderView, user: string, asset: string)
    requires r.filled == r.qty
    ensures OrderClaim(fs, m, r, user, asset) == 0.0
  {
    assert r.Open() == 0.0;
  }

  /** The claims of a queue go, to the last term, into the claims of the queue left by a sweep, what its
      trades release, what self-trade prevention cancels, and the spreads of the fills. */
  lemma {:induction false} QueueAccount(fs: FeeSchedule, m: Market, mode: STPMode, t: OrderView, q: seq<OrderView>, n: nat,
                                        user: string, asset: string)
    requires m.base != m.quote && OrderOk(t) && PricedQueue(q, t.side.Opposite())
    ensures |After(Sweep(mode, t, q))| == |q|
    ensures
      var x := Sweep(mode, t, q);
      QueueClaim(fs, m, q, user, asset) == QueueClaim(fs, m, x.queue, user, asset) +
        SideOwedAll(fs, m, t.side.Opposite(), TradesOf(t, x.fills, n), user, asset) +
        CancelledClaim(fs, m, x.gone, user, asset) + SpreadAll(fs, m, q, After(x), user, asset)
    decreases |q|
  {
    hide Sweep, OrderClaim, SideOwed, Spread, CancelledClaim, SideOwedAll, SpreadAll, TradesOf, Steps, HeadAfter, NextTaker, TradeOf;
    var x, opposite := Sweep(mode, t, q), t.side.Opposite();
    SweepKeepsCount(mode, t, q);
    if q == [] {
      SweepNothing(mode, t);
      NoTrades(t, n);
      NothingSwept(fs, m, opposite, user, asset);
      NoSpreads(fs, m, q, user, asset);
    } else {
      var head, next := HeadAfter(mode, t, q[0]), NextTaker(mode, t, q[0]);
      var fills, gone, stay := HeadShape(mode, t, q);
      HeadAccount(fs, m, mode, t, q[0], fills, gone, stay, head, n, user, asset);
      AfterSplits(mode, t, q);
      if Steps(mode, t, q, head, next) {
        var y := Sweep(mode, next, q[1..]);
        QueueAccount(fs, m, mode, next, q[1..], n + |fills|, user, asset);
        SpreadPush(fs, m, q, head, After(y), user, asset);
        Walk.SameTrades(t, next, y.fills, n + |fills|);
        NothingSwept(fs, m, opposite, user, asset);
        GoneFirst(fs, m, gone, y.gone, user, asset);
        FillsFirst(fs, m, opposite, t, fills, y.fills, n, user, asset);
      } else {
        SpreadPush(fs, m, q, head, q[1..], user, asset);
        NoSpreads(fs, m, q[1..], user, asset);
        ClaimConcat(fs, m, stay, q[1..], user, asset);
      }
    }
  }

  lemma GoneFirst(fs: FeeSchedule, m: Market, gone: seq<OrderView>, rest: seq<OrderView>, user: string, asset: string)
    requires |gone| <= 1
    ensures CancelledClaim(fs, m, gone + rest, user, asset) == CancelledClaim(fs, m, gone, user, asset) + CancelledClaim(fs, m, rest, user, asset)
  {
    hide OrderClaim;
    if gone == [] {
      assert gone + rest == rest;
    } else {
      assert gone == [gone[0]] && gone[1..] == [];
      CancelledPush(fs, m, gone[0], rest, user, asset);
      CancelledPush(fs, m, gone[0], [], user, asset);
      assert [gone[0]] + [] == gone;
    }
  }

  lemma FillsFirst(fs: FeeSchedule, m: Market, side: Side, t: OrderView, fills: seq<Fill>, rest: seq<Fill>, n: nat,
                   user: string, asset: string)
    requires |fills| <= 1
    ensures SideOwedAll(fs, m, side, TradesOf(t, fills + rest, n), user, asset) ==
      SideOwedAll(fs, m, side, TradesOf(t, fills, n), user, asset) +
      SideOwedAll(fs, m, side, TradesOf(t, rest, n + |fills|), user, asset)
  {
    hide SideOwed, SideOwedAll, TradesOf, TradeOf;
    NoTrades(t, n);
    NothingSwept(fs, m, side, user, asset);
    if fills == [] {
      assert fills + rest == rest;
    } else {
      assert fills == [fills[0]] && [fills[0]] + [] == fills;
      NoTrades(t, n + 1);
      FirstTrade(t, fills[0], rest, n);
      FirstTrade(t, fills[0], [], n);
      SideOwedPush(fs, m, side, TradeOf(t, fills[0], n + 1), TradesOf(t, rest, n + 1), user, asset);
      SideOwedPush(fs, m, side, TradeOf(t, fills[0], n + 1), [], user, asset);
    }
  }

  // ---------------------------------------------------------------------------
  // Submissions
  // ---------------------------------------------------------------------------

  lemma {:induction false} OwedSides(fs: FeeSchedule, m: Market, side: Side, trades: seq<Trade>, user: string, asset: string)
    ensures OwedAll(fs, m, trades, user, asset) ==
      SideOwedAll(fs, m, side, trades, user, asset) + SideOwedAll(fs, m, side.Opposite(), trades, user, asset)
    decreases |trades|
  {
    hide BuyerRaw, Value;
    if trades != [] { OwedSides(fs, m, side, trades[1..], user, asset); }
  }

  lemma {:induction false} SideOwedConcat(fs: FeeSchedule, m: Market, side: Side, a: seq<Trade>, b: seq<Trade>, user: string, asset: string)
    ensures SideOwedAll(fs, m, side, a + b, user, asset) ==
      SideOwedAll(fs, m, side, a, user, asset) + SideOwedAll(fs, m, side, b, user, asset)
    decreases |a|
  {
    hide SideOwed;
    if a == [] {
      assert a + b == b;
    } else {
      assert (a + b)[1..] == a[1..] + b && (a + b)[0] == a[0];
      SideOwedConcat(fs, m, side, a[1..], b, user, asset);
    }
  }

  /** On the other side of an external trade stands an internal counterparty. */
  lemma {:induction false} OutSide(fs: FeeSchedule, m: Market, t: OrderView, levels: seq<ExtLevel>, user: string, asset: string)
    requires !Exempt(user)
    ensures SideOwedAll(fs, m, t.side.Opposite(), ExtSweep(t, levels).trades, user, asset) == 0.0
    decreases |levels|
  {
    hide Crosses, BuyerRaw, Value;
    if levels != [] {
      var amount := Min(t.Open(), levels[0].qty);
      var next := t.(filled := t.filled + amount, status := if t.filled + amount >= t.qty then Filled else PartiallyFilled);
      OutSide(fs, m, t, levels[1..], user, asset);
      OutSide(fs, m, next, levels[1..], user, asset);
      SideOwedPush(fs, m, t.side.Opposite(), ExtTrade(t, levels[0], amount), ExtSweep(next, levels[1..]).trades, user, asset);
    }
  }

  /** What the sweep of a submission leaves of the claims of the orders it meets. */
  function Left(fs: FeeSchedule, m: Market, b: BookView, o: OmsOrder, user: string, asset: string): real {
    var q := b.Queue(o.side.Opposite());
    var x := Sweep(b.mode, LegacyOf(o), q);
    SweepKeepsCount(b.mode, LegacyOf(o), q);
    CancelledClaim(fs, m, x.gone, user, asset) + SpreadAll(fs, m, q, After(x), user, asset)
  }

  /** The claim of a submission that comes to rest. */
  function RestingClaim(fs: FeeSchedule, m: Market, b: BookView, o: OmsOrder, a: Answers, user: string, asset: string): real {
    var all := MatchAll(b, LegacyOf(o), a);
    If(Has(all.book.Queue(o.side), o.id), OrderClaim(fs, m, all.order, user, asset))
  }

  lemma UnnamedHas(q: seq<OrderView>, id: string)
    ensures Unnamed(q, id) <==> !Has(q, id)
  {}

  /** The claims after a submission. */
  lemma ClaimAccount(fs: FeeSchedule, m: Market, s: Told, o: OmsOrder, a: Answers, user: string, asset: string)
    requires SpotMarket(m) && Funded(fs, m, s) && Offered(fs, m, s.desk, Place(o, a)) && !Exempt(user)
    requires !Refused(s.desk.book, LegacyOf(o))
    ensures
      var b, all := s.desk.book, MatchAll(s.desk.book, LegacyOf(o), a);
      Claim(fs, m, all.book, user, asset) == Claim(fs, m, b, user, asset) + RestingClaim(fs, m, b, o, a, user, asset) -
        SideOwedAll(fs, m, o.side.Opposite(), all.trades, user, asset) - Left(fs, m, b, o, user, asset)
  {
    hide Match, MatchAll, Refused, HistoryAgrees, At, Everywhere, BookInv, QueueClaim, Flat, Sweep, Unique, AllLinked, Sensible, Has,
      SideOwedAll, SpreadAll, CancelledClaim, OrderClaim, TradesOf, ExtSweep;
    var b, t, opposite := s.desk.book, LegacyOf(o), o.side.Opposite();
    var all, l := MatchAll(b, t, a), Match(b, t);
    AgreedMeets(s.desk.orders, o, b);
    MeetsQueue(s.desk.orders, o, b);
    FundedBook(fs, m, s, user, asset);
    SidesPriced(b);
    QueueAccount(fs, m, b.mode, t, b.Queue(opposite), b.watch.number, user, asset);
    var ahead', behind' := LocalQueues(b, t);
    var ahead, behind := AllQueues(b, t, a);
    ClaimMiddle(fs, m, ahead, all.order, behind, user, asset);
    OwnRests(b, o, all, ahead, behind);
    TradesParts(b, t, a);
    OutSide(fs, m, l.order, a.external, user, asset);
    if GoesOut(l.order, a) { SideOwedConcat(fs, m, opposite, l.trades, ExtSweep(l.order, a.external).trades, user, asset); }
  }

  lemma TradesParts(b: BookView, t: OrderView, a: Answers)
    ensures
      var l, all := Match(b, t), MatchAll(b, t, a);
      all.trades == if GoesOut(l.order, a) then l.trades + ExtSweep(l.order, a.external).trades else l.trades
  {
    hide Match, ExtSweep;
  }

  lemma OwnRests(b: BookView, o: OmsOrder, all: Matched, ahead: seq<OrderView>, behind: seq<OrderView>)
    requires Unnamed(b.Queue(o.side), o.id) && b.Queue(o.side) == ahead + behind && all.order.id == o.id
    requires all.book.Queue(o.side) == ahead + behind || all.book.Queue(o.side) == ahead + [all.order] + behind
    ensures all.book.Queue(o.side) == if Has(all.book.Queue(o.side), o.id) then ahead + [all.order] + behind else ahead + behind
  {
    hide Flat;
    UnnamedHas(b.Queue(o.side), o.id);
    assert (ahead + [all.order] + behind)[|ahead|] == all.order;
  }

  /** What an accepted submission does to the excess of a user's hold whose trades it covers: the
      reservation comes in; what the order claims at rest and what its own trades release go out; what the
      orders it meets leave comes in. */
  lemma PlaceExcess(fs: FeeSchedule, m: Market, s: Told, o: OmsOrder, a: Answers, user: string, asset: string)
    requires SpotMarket(m) && ScheduleOk(fs) && Funded(fs, m, s) && Offered(fs, m, s.desk, Place(o, a)) && !Exempt(user)
    requires Accepts(fs, m, s.desk, o, a) && !Refused(s.desk.book, LegacyOf(o))
    requires OwedAll(fs, m, MatchAll(s.desk.book, LegacyOf(o), a).trades, user, asset) <=
      s.desk.funds.Held(user, asset) + Reservation(fs, m, s.desk, o, user, asset)
    ensures
      var trades := MatchAll(s.desk.book, LegacyOf(o), a).trades;
      ExcessOf(fs, m, Process(fs, m, s.desk, o, a), user, asset) == ExcessOf(fs, m, s.desk, user, asset) +
        Reservation(fs, m, s.desk, o, user, asset) - RestingClaim(fs, m, s.desk.book, o, a, user, asset) -
        SideOwedAll(fs, m, o.side, trades, user, asset) + Left(fs, m, s.desk.book, o, user, asset)
  {
    hide Match, MatchAll, Refused, Accepts, ScheduleOk, Funded, Claim, At, OwedAll, Process, Reported, TradesOk, SettleAll, Offered,
      SideOwedAll, RestingClaim, Left, Reservation;
    PlaceHeld(fs, m, s, o, a, user, asset);
    ClaimAccount(fs, m, s, o, a, user, asset);
    OwedSides(fs, m, o.side, MatchAll(s.desk.book, LegacyOf(o), a).trades, user, asset);
  }

  /** A refused order adds its whole hold. */
  lemma RefusedExcess(fs: FeeSchedule, m: Market, d: Desk, o: OmsOrder, a: Answers, user: string, asset: string)
    requires Accepts(fs, m, d, o, a) && !IsStop(o.otype) && Refused(d.book, LegacyOf(o))
    ensures ExcessOf(fs, m, Process(fs, m, d, o, a), user, asset) ==
      ExcessOf(fs, m, d, user, asset) + Reservation(fs, m, d, o, user, asset)
  {
    hide Refused, Accepts, Reservation, Claim, At, Process, Reserve;
    QuietPlace(fs, m, d, o, a);
    ReserveAt(fs, m, d, o, user, asset);
  }

  /** The order stays in the register as queued and keeps its hold, and no cancel request finds it. */
  lemma RefusedIsStuck(fs: FeeSchedule, m: Market, d: Desk, o: OmsOrder, a: Answers, unstored: bool)
    requires Accepts(fs, m, d, o, a) && !IsStop(o.otype) && Refused(d.book, LegacyOf(o)) && !Book.Cancel(d.book, o.id).1
    ensures
      var after := Process(fs, m, d, o, a);
      after == Admit(d, o, Queued).(funds := Reserve(fs, m, d, o)) &&
      Withdraw(fs, after, o.id, unstored) == after && Answered(after, o.id, unstored).NotOnBook?
  {
    hide Match, MatchAll, Refused, CanReserve, Reserve, Cancel;
    RefusedAll(d.book, LegacyOf(o), a);
  }

  // ---------------------------------------------------------------------------
  // Cancels
  // ---------------------------------------------------------------------------

  /** A cancel request that finds the order of a covered user changes the excess of the asset the order
      claims by nothing, when the new stage is stored and the request names that asset; otherwise nothing
      is freed of it, and the whole claim turns into excess. */
  lemma WithdrawExcess(fs: FeeSchedule, m: Market, s: Told, id: string, unstored: bool)
    requires SpotMarket(m) && ScheduleOk(fs) && Funded(fs, m, s)
    requires id in s.desk.orders && Book.Cancel(s.desk.book, id).1 && !Exempt(s.desk.orders[id].user)
    requires CoveredFor(fs, m, s.desk, s.desk.orders[id].user)
    ensures
      var rec, after := s.desk.orders[id], Withdraw(fs, s.desk, id, unstored);
      var asset := ClaimedAsset(m, rec.side);
      var frees := !unstored && NamedAsset(rec) == asset;
      ExcessOf(fs, m, after, rec.user, asset) == ExcessOf(fs, m, s.desk, rec.user, asset) + If(!frees, OpenCost(fs, rec)) &&
      (!frees ==> after.funds.Held(rec.user, asset) == s.desk.funds.Held(rec.user, asset)) &&
      (unstored ==> after.funds == s.desk.funds)
  {
    hide Cancel, Claim, At, ScheduleOk, Funded, OpenCost, ReleaseOpen, Funds.Held;
    var rec := s.desk.orders[id];
    var asset := ClaimedAsset(m, rec.side);
    WithdrawAt(fs, m, s, id, unstored, rec.user, asset);
    AfterClaim(fs, m, s, id, unstored, rec.user, asset);
    assert Claim(fs, m, s.desk.book, rec.user, asset) <= s.desk.funds.Held(rec.user, asset);
  }

  lemma WithdrawKeepsExcess(fs: FeeSchedule, m: Market, s: Told, id: string, unstored: bool, user: string, asset: string)
    requires SpotMarket(m) && NamesFit(m) && ScheduleOk(fs) && Funded(fs, m, s) && !Exempt(user) && (asset == m.base || asset == m.quote)
    ensures ExcessOf(fs, m, Withdraw(fs, s.desk, id, unstored), user, asset) >= ExcessOf(fs, m, s.desk, user, asset)
  {
    hide Cancel, Claim, At, ScheduleOk, Funded, OpenCost, ReleaseOpen, Withdraw, Funds.Held;
    if id in s.desk.orders && Book.Cancel(s.desk.book, id).1 {
      WithdrawAt(fs, m, s, id, unstored, user, asset);
    } else {
      NotFound(fs, s.desk, id, unstored);
    }
  }

  // ---------------------------------------------------------------------------
  // Runs
  // ---------------------------------------------------------------------------

  /** A market buy of the user's whose trades release more than it reserves. */
  predicate Overspends(fs: FeeSchedule, m: Market, d: Desk, r: Request, user: string) {
    r.Place? && r.order.user == user && r.order.side.Buy? && !r.order.otype.Limit? && Accepts(fs, m, d, r.order, r.answers) &&
    OwedAll(fs, m, MatchAll(d.book, LegacyOf(r.order), r.answers).trades, user, m.quote) > Reservation(fs, m, d, r.order, user, m.quote)
  }

  lemma PlaceKeepsExcess(fs: FeeSchedule, m: Market, s: Told, o: OmsOrder, a: Answers, user: string, asset: string)
    requires SpotMarket(m) && ScheduleOk(fs) && Funded(fs, m, s) && Offered(fs, m, s.desk, Place(o, a)) && !Exempt(user)
    requires asset == m.quote ==> !Overspends(fs, m, s.desk, Place(o, a), user) && Fitting(fs, m, Place(o, a), user)
    requires asset == m.quote ==> Everywhere(s.desk.book, ModestIn(fs, m, user, m.quote))
    ensures ExcessOf(fs, m, Process(fs, m, s.desk, o, a), user, asset) >= ExcessOf(fs, m, s.desk, user, asset)
  {
    hide Match, MatchAll, Refused, Accepts, OrderClaim, ScheduleOk, HistoryAgrees, Claim, At, Everywhere, OwedAll,
      Reservation, Process, Reported, BookInv, TradesOk, Modest, SettleAll, Unique, AllLinked, Flat, FitsAll, Reserve;
    var d, t := s.desk, LegacyOf(o);
    ReservationNonNegative(fs, m, d, o, user, asset);
    if !Accepts(fs, m, d, o, a) || Refused(d.book, t) {
      QuietPlace(fs, m, d, o, a);
      ReserveAt(fs, m, d, o, user, asset);
    } else {
      AgreedMeets(d.orders, o, d.book);
      PlaceHeld(fs, m, s, o, a, user, asset);
      FundedBook(fs, m, s, user, asset);
      Reserved(fs, m, d, o, user, asset);
      if asset == m.quote && o.side.Buy? && !o.otype.Limit? {
        MarketClaim(fs, m, s, o, a, user);
        BuyersTrades(d.orders, o, d.book, a);
        if o.user != user { OnlyBuyersOwe(fs, m, MatchAll(d.book, t, a).trades, o.user, user); }
      } else {
        if asset != m.quote {
          ModestEverywhere(fs, m, d.book, user, asset);
          PriceIsModest(fs, m, t, user, asset);
        } else {
          LimitFits(d.book, t, a);
        }
        MatchCovered(fs, m, d.orders, o, d.book, a, user, asset);
      }
    }
  }

  lemma QuietExcess(fs: FeeSchedule, m: Market, s: Told, r: Request, user: string, asset: string)
    requires Agreed(s) && !r.Place? && !r.Withdrawal?
    ensures ExcessOf(fs, m, Serve(fs, m, s.desk, r), user, asset) == ExcessOf(fs, m, s.desk, user, asset)
  {
    hide HistoryAgrees, SoundBook, Unique, AllLinked, At, Flat, QueueClaim;
    match r
    case UseMode(mode) =>
      var b := s.desk.book;
      assert b.(mode := mode).Queue(Buy) == b.Queue(Buy) && b.(mode := mode).Queue(Sell) == b.Queue(Sell);
    case _ =>
  }

  predicate SomeOverspends(fs: FeeSchedule, m: Market, s: Told, rs: seq<Request>, user: string)
    decreases |rs|
  {
    rs != [] && (Overspends(fs, m, s.desk, rs[0], user) || SomeOverspends(fs, m, Tell(fs, m, s, rs[0]), rs[1..], user))
  }

  /** Through every run in which the user's market buys stay within what they reserve and his post-only
      buys fit his rates, what his hold exceeds the claims of his open orders by never shrinks. */
  lemma {:induction false} ExcessNeverShrinks(fs: FeeSchedule, m: Market, s: Told, rs: seq<Request>, user: string, asset: string)
    requires SpotMarket(m) && NamesFit(m) && ScheduleOk(fs) && Funded(fs, m, s) && AllOffered(fs, m, s, rs) && !Exempt(user)
    requires asset == m.base || asset == m.quote
    requires Everywhere(s.desk.book, ModestIn(fs, m, user, m.quote)) && forall i :: 0 <= i < |rs| ==> Fitting(fs, m, rs[i], user)
    requires !SomeOverspends(fs, m, s, rs, user)
    ensures ExcessOf(fs, m, TellAll(fs, m, s, rs).desk, user, asset) >= ExcessOf(fs, m, s.desk, user, asset)
    decreases |rs|
  {
    hide SpotMarket, ScheduleOk, ExcessOf, Process, Withdraw, Reported, Agreed, FundsOk, Everywhere, Overspends, Offered, NamesFit, Fitting;
    if rs != [] {
      var r := rs[0];
      match r {
        case Place(o, a) => PlaceKeepsExcess(fs, m, s, o, a, user, asset);
        case Withdrawal(id, unstored) => WithdrawKeepsExcess(fs, m, s, id, unstored, user, asset);
        case _ => QuietExcess(fs, m, s, r, user, asset);
      }
      TellFunded(fs, m, s, r);
      TellModest(fs, m, s, r, user);
      ExcessNeverShrinks(fs, m, Tell(fs, m, s, r), rs[1..], user, asset);
    }
  }

  lemma OfferedOrder(fs: FeeSchedule, m: Market, d: Desk, o: OmsOrder, a: Answers)
    requires Offered(fs, m, d, Place(o, a))
    ensures o.price >= 0.0 && o.qty >= 0.0 && !IsStop(o.otype)
  {}

  /** The hold of a refused order is never freed: whatever its owner and everybody else do afterwards,
      the owner's hold stays above the claims of the orders by at least what was reserved for it. */
  lemma RefusedForever(fs: FeeSchedule, m: Market, s: Told, o: OmsOrder, a: Answers, rs: seq<Request>)
    requires SpotMarket(m) && NamesFit(m) && ScheduleOk(fs) && Funded(fs, m, s) && CoveredFor(fs, m, s.desk, o.user)
    requires Offered(fs, m, s.desk, Place(o, a)) && !Exempt(o.user) && Accepts(fs, m, s.desk, o, a) && Refused(s.desk.book, LegacyOf(o))
    requires Everywhere(s.desk.book, ModestIn(fs, m, o.user, m.quote)) && Fitting(fs, m, Place(o, a), o.user)
    requires
      var t := Tell(fs, m, s, Place(o, a));
      AllOffered(fs, m, t, rs) && !SomeOverspends(fs, m, t, rs, o.user) && forall i :: 0 <= i < |rs| ==> Fitting(fs, m, rs[i], o.user)
    ensures
      var (asset, amount) := Required(fs, m, s.desk.leverages, o);
      var d := TellAll(fs, m, Tell(fs, m, s, Place(o, a)), rs).desk;
      d.funds.Held(o.user, asset) >= Claim(fs, m, d.book, o.user, asset) + amount
  {
    hide Refused, Accepts, ScheduleOk, Claim, At, Required, Process, Reported, Agreed, FundsOk, Everywhere, SomeOverspends, AllOffered,
      Sensible, Fitting, TellAll;
    var (asset, amount) := Required(fs, m, s.desk.leverages, o);
    OfferedOrder(fs, m, s.desk, o, a);
    RequiredOk(fs, m, s.desk.leverages, o);
    RefusedExcess(fs, m, s.desk, o, a, o.user, asset);
    TellFunded(fs, m, s, Place(o, a));
    TellModest(fs, m, s, Place(o, a), o.user);
    ExcessNeverShrinks(fs, m, Tell(fs, m, s, Place(o, a)), rs, o.user, asset);
    assert Claim(fs, m, s.desk.book, o.user, asset) <= s.desk.funds.Held(o.user, asset);
  }
}
