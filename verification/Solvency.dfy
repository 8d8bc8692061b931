/** Every open order stays backed: for each user and asset, what the user's resting orders may still
    cost is at most the user's hold.  Exactly which requests break that, request by request and run by
    run, in every spot market. */
module Solvency {
  import opened Book
  import opened BookInvariant
  import opened BookQueues
  import opened Accounts
  import opened Execution
  import opened OmsState
  import opened Desk
  import opened DeskRuns
  import opened DeskQueues
  import opened OmsAgreement
  import opened Claims
  import opened Payments
  import opened Funding

  /** A desk whose book, register and history agree, and whose holds are within its balances. */
  ghost predicate Funded(fs: FeeSchedule, m: Market, s: Told) { Agreed(s) && FundsOk(fs, m, s.desk) }

  /** A user's hold of every asset covers what the user's open orders may still cost. */
  ghost predicate CoveredFor(fs: FeeSchedule, m: Market, d: Desk, user: string) {
    forall asset :: Claim(fs, m, d.book, user, asset) <= d.funds.Held(user, asset)
  }

  /** Everybody is covered, but for the two internal counterparties, which trade without holds. */
  ghost predicate Solvent(fs: FeeSchedule, m: Market, s: Told) {
    Funded(fs, m, s) && forall user :: !Exempt(user) ==> CoveredFor(fs, m, s.desk, user)
  }

  ghost predicate Offered(fs: FeeSchedule, m: Market, d: Desk, r: Request) { Plain(d, r) && Sensible(fs, m, d, r) }

  lemma TellFunded(fs: FeeSchedule, m: Market, s: Told, r: Request)
    requires SpotMarket(m) && ScheduleOk(fs) && Funded(fs, m, s) && Offered(fs, m, s.desk, r)
    ensures Funded(fs, m, Tell(fs, m, s, r))
  {
    hide Agreed, FundsOk, ScheduleOk, Serve, Reported;
    TellAgrees(fs, m, s, r);
    OfferedIsSensible(fs, m, s.desk, r);
    ServeFunded(fs, m, s.desk, r);
  }

  lemma OfferedIsSensible(fs: FeeSchedule, m: Market, d: Desk, r: Request)
    requires Offered(fs, m, d, r)
    ensures Sensible(fs, m, d, r)
  {}

  lemma FundedBook(fs: FeeSchedule, m: Market, s: Told, user: string, asset: string)
    requires Funded(fs, m, s) && !Exempt(user)
    ensures 0.0 <= s.desk.funds.Held(user, asset) <= s.desk.funds.Balance(user, asset)
    ensures BookInv(s.desk.book) && Everywhere(s.desk.book, PricedOnes()) && BookAgrees(s.desk.orders, s.desk.book)
  {
    hide Everywhere, HistoryAgrees, BookInv, Funds.Held, Funds.Balance;
    assert Sane(s.desk.funds, user);
  }

  lemma BookClaim(fs: FeeSchedule, m: Market, b: BookView, user: string, asset: string)
    requires ScheduleOk(fs) && BookInv(b) && Everywhere(b, PricedOnes())
    ensures Claim(fs, m, b, user, asset) >= 0.0
  {
    hide BookInv, ScheduleOk, QueueClaim, Everywhere;
    SidesPriced(b);
    QueueNonNegative(fs, m, b.Queue(Buy), Buy, user, asset);
    QueueNonNegative(fs, m, b.Queue(Sell), Sell, user, asset);
  }

  // ---------------------------------------------------------------------------
  // Submissions
  // ---------------------------------------------------------------------------

  /** The reservation covers the new order's claim. */
  lemma Reserved(fs: FeeSchedule, m: Market, d: Desk, o: OmsOrder, user: string, asset: string)
    requires SpotMarket(m) && ScheduleOk(fs) && !Exempt(user) && o.price >= 0.0 && 0.0 <= o.filled < o.qty
    ensures Reservation(fs, m, d, o, user, asset) >= OrderClaim(fs, m, LegacyOf(o), user, asset) >= 0.0
  {
    hide LastTier, CostOf, ScheduleOk, RatesOk;
    var rate := FeeRate(fs, o);
    RatesOfOk(fs, o.user);
    RatesSane(fs.RatesOf(o.user));
    CostSplits(o.qty - o.filled, o.filled, o.price, rate);
    assert o.qty - o.filled + o.filled == o.qty;
    CostGrows(o.filled, o.price, o.price, rate);
    CostGrows(o.qty - o.filled, o.price, o.price, rate);
  }

  /** Outside the quote asset, and for a user whose rates fit, nothing but the price matters. */
  lemma ModestEverywhere(fs: FeeSchedule, m: Market, b: BookView, user: string, asset: string)
    requires Everywhere(b, PricedOnes()) && (asset != m.quote || RatesFit(fs, user))
    ensures Everywhere(b, ModestIn(fs, m, user, asset))
  {
    hide Flat;
  }

  /** What an accepted submission does to a hold. */
  lemma PlaceHeld(fs: FeeSchedule, m: Market, s: Told, o: OmsOrder, a: Answers, user: string, asset: string)
    requires SpotMarket(m) && ScheduleOk(fs) && Funded(fs, m, s) && Offered(fs, m, s.desk, Place(o, a)) && !Exempt(user)
    requires Accepts(fs, m, s.desk, o, a)
    ensures
      var after, all := Process(fs, m, s.desk, o, a), MatchAll(s.desk.book, LegacyOf(o), a);
      after.book == all.book && Reported(fs, m, s.desk, Place(o, a)) == all.trades &&
      after.funds == SettleAll(fs, m, Reserve(fs, m, s.desk, o), all.trades) && TradesOk(all.trades) &&
      after.funds.Held(user, asset) == Floor(s.desk.funds.Held(user, asset) + Reservation(fs, m, s.desk, o, user, asset) -
                                             OwedAll(fs, m, all.trades, user, asset))
  {
    hide Match, MatchAll, CanReserve, Reserve, OrderClaim, SettleAll, SyncMakers, SyncTaker, ScheduleOk, BookAgrees, HistoryAgrees,
      SurplusAll, At, Everywhere, OwedAll, Clear, TradesOk, SingleAll, Required, Reservation, BookInv;
    var d, f := s.desk, Reserve(fs, m, s.desk, o);
    FundedBook(fs, m, s, user, asset);
    RequiredOk(fs, m, d.leverages, o);
    ReserveAt(fs, m, d, o, user, asset);
    ReservationNonNegative(fs, m, d, o, user, asset);
    ClearParts(fs, m, Admit(d, o, Queued).(funds := f), o, a);
    AllTradesOk(fs, d.book, LegacyOf(o), a, user);
    SettleAllHeld(fs, m, f, MatchAll(d.book, LegacyOf(o), a).trades, user, asset);
  }

  lemma ReservationNonNegative(fs: FeeSchedule, m: Market, d: Desk, o: OmsOrder, user: string, asset: string)
    requires SpotMarket(m) && ScheduleOk(fs) && o.price >= 0.0 && o.qty >= 0.0
    ensures Reservation(fs, m, d, o, user, asset) >= 0.0
  {
    hide Required, ScheduleOk;
    RequiredOk(fs, m, d.leverages, o);
  }

  /** Does a submission leave a user's hold of the quote asset short of the user's open buys?  Its trades
      would have to release more than the hold, the reservation included, has over what stays open. */
  predicate PlaceShorts(fs: FeeSchedule, m: Market, d: Desk, o: OmsOrder, a: Answers, user: string) {
    var all := MatchAll(d.book, LegacyOf(o), a);
    Accepts(fs, m, d, o, a) && !Refused(d.book, LegacyOf(o)) && Claim(fs, m, all.book, user, m.quote) > 0.0 &&
    Claim(fs, m, all.book, user, m.quote) + OwedAll(fs, m, all.trades, user, m.quote) >
      d.funds.Held(user, m.quote) + Reservation(fs, m, d, o, user, m.quote)
  }

  lemma PlaceAssetCovered(fs: FeeSchedule, m: Market, s: Told, o: OmsOrder, a: Answers, user: string, asset: string)
    requires SpotMarket(m) && ScheduleOk(fs) && Funded(fs, m, s) && Offered(fs, m, s.desk, Place(o, a)) && !Exempt(user)
    requires Accepts(fs, m, s.desk, o, a) && !Refused(s.desk.book, LegacyOf(o))
    requires Claim(fs, m, s.desk.book, user, asset) <= s.desk.funds.Held(user, asset)
    ensures
      var after := Process(fs, m, s.desk, o, a);
      Claim(fs, m, after.book, user, asset) <= after.funds.Held(user, asset) <==>
      !(asset == m.quote && PlaceShorts(fs, m, s.desk, o, a, user))
  {
    hide Match, MatchAll, Refused, Accepts, OrderClaim, ScheduleOk, BookAgrees, HistoryAgrees, Claim, At, Everywhere, OwedAll,
      Reservation, Process, Reported, BookInv, TradesOk, Modest, SettleAll;
    var d, t := s.desk, LegacyOf(o);
    var all := MatchAll(d.book, t, a);
    PlaceHeld(fs, m, s, o, a, user, asset);
    FundedBook(fs, m, s, user, asset);
    TellFunded(fs, m, s, Place(o, a));
    FundedBook(fs, m, Tell(fs, m, s, Place(o, a)), user, asset);
    BookClaim(fs, m, all.book, user, asset);
    if asset != m.quote {
      AgreedMeets(d.orders, o, d.book);
      ModestEverywhere(fs, m, d.book, user, asset);
      PriceIsModest(fs, m, t, user, asset);
      MatchCovered(fs, m, d.orders, o, d.book, a, user, asset);
      Reserved(fs, m, d, o, user, asset);
    }
  }

  lemma PriceIsModest(fs: FeeSchedule, m: Market, r: OrderView, user: string, asset: string)
    requires Priced(r) && (asset != m.quote || RatesFit(fs, user))
    ensures Modest(fs, m, r, user, asset)
  {}

  lemma QuietPlace(fs: FeeSchedule, m: Market, d: Desk, o: OmsOrder, a: Answers)
    requires !IsStop(o.otype) && (!Accepts(fs, m, d, o, a) || Refused(d.book, LegacyOf(o)))
    ensures
      var after := Process(fs, m, d, o, a);
      after.book == d.book && after.funds == if Accepts(fs, m, d, o, a) then Reserve(fs, m, d, o) else d.funds
  {
    hide Match, MatchAll, Refused, CanReserve, Reserve;
    if Refused(d.book, LegacyOf(o)) { RefusedAll(d.book, LegacyOf(o), a); }
  }

  /** A covered user is covered after a submission, his own or anybody's, exactly when it does not leave
      him short. */
  lemma PlaceCoveredIff(fs: FeeSchedule, m: Market, s: Told, o: OmsOrder, a: Answers, user: string)
    requires SpotMarket(m) && ScheduleOk(fs) && Funded(fs, m, s) && Offered(fs, m, s.desk, Place(o, a)) && !Exempt(user)
    requires CoveredFor(fs, m, s.desk, user)
    ensures CoveredFor(fs, m, Process(fs, m, s.desk, o, a), user) <==> !PlaceShorts(fs, m, s.desk, o, a, user)
  {
    hide Refused, Accepts, ScheduleOk, Funded, Claim, At, Process, MatchAll, Reserve, Reservation, Funds.Held;
    var d, after := s.desk, Process(fs, m, s.desk, o, a);
    if !Accepts(fs, m, d, o, a) || Refused(d.book, LegacyOf(o)) {
      QuietPlace(fs, m, d, o, a);
      forall asset ensures Claim(fs, m, after.book, user, asset) <= after.funds.Held(user, asset) {
        assert Claim(fs, m, d.book, user, asset) <= d.funds.Held(user, asset);
        ReserveAt(fs, m, d, o, user, asset);
        ReservationNonNegative(fs, m, d, o, user, asset);
      }
      assert !PlaceShorts(fs, m, d, o, a, user);
    } else {
      forall asset
        ensures Claim(fs, m, after.book, user, asset) <= after.funds.Held(user, asset) <==>
          !(asset == m.quote && PlaceShorts(fs, m, d, o, a, user))
      {
        assert Claim(fs, m, d.book, user, asset) <= d.funds.Held(user, asset);
        PlaceAssetCovered(fs, m, s, o, a, user, asset);
      }
      assert CoveredFor(fs, m, after, user) ==> Claim(fs, m, after.book, user, m.quote) <= after.funds.Held(user, m.quote);
    }
  }

  // ---------------------------------------------------------------------------
  // Market buys
  // ---------------------------------------------------------------------------

  /** What a user's hold has over the claims of the user's open orders. */
  function ExcessOf(fs: FeeSchedule, m: Market, d: Desk, user: string, asset: string): real {
    d.funds.Held(user, asset) - Claim(fs, m, d.book, user, asset)
  }

  /** A market buy, by a user with open buys, whose trades release more than it reserves and the user has
      in excess. */
  predicate MarketShorts(fs: FeeSchedule, m: Market, d: Desk, o: OmsOrder, a: Answers, user: string) {
    o.user == user && o.side.Buy? && !o.otype.Limit? && Accepts(fs, m, d, o, a) && !Refused(d.book, LegacyOf(o)) &&
    Claim(fs, m, d.book, user, m.quote) > 0.0 &&
    OwedAll(fs, m, MatchAll(d.book, LegacyOf(o), a).trades, user, m.quote) >
      Reservation(fs, m, d, o, user, m.quote) + ExcessOf(fs, m, d, user, m.quote)
  }

  /** A market buy leaves the open buys as they are, and they alone claim the quote asset. */
  lemma MarketClaim(fs: FeeSchedule, m: Market, s: Told, o: OmsOrder, a: Answers, user: string)
    requires SpotMarket(m) && ScheduleOk(fs) && Funded(fs, m, s) && Offered(fs, m, s.desk, Place(o, a)) && !Exempt(user)
    requires Accepts(fs, m, s.desk, o, a) && !Refused(s.desk.book, LegacyOf(o)) && o.side.Buy? && !o.otype.Limit?
    ensures Claim(fs, m, MatchAll(s.desk.book, LegacyOf(o), a).book, user, m.quote) == Claim(fs, m, s.desk.book, user, m.quote)
  {
    hide Match, MatchAll, Refused, Accepts, ScheduleOk, HistoryAgrees, At, Everywhere, Process, Reported, BookInv, QueueClaim, Flat,
      Sweep, Unique, AllLinked, SettleAll, OwedAll, TradesOk, Reservation;
    var d, t := s.desk, LegacyOf(o);
    var all := MatchAll(d.book, t, a);
    AgreedMeets(d.orders, o, d.book);
    MeetsQueue(d.orders, o, d.book);
    var ahead, behind := AllQueues(d.book, t, a);
    assert all.book.Queue(Buy) == ahead + behind;
    PlaceHeld(fs, m, s, o, a, user, m.quote);
    FundedBook(fs, m, s, user, m.quote);
    TellFunded(fs, m, s, Place(o, a));
    FundedBook(fs, m, Tell(fs, m, s, Place(o, a)), user, m.quote);
    SidesPriced(d.book);
    SidesPriced(all.book);
    QueueNonNegative(fs, m, d.book.Queue(Sell), Sell, user, m.quote);
    QueueNonNegative(fs, m, all.book.Queue(Sell), Sell, user, m.quote);
  }

  /** Where nobody's own trades are the user's doing, nothing of the quote asset is owed for a market buy. */
  lemma {:induction false} OnlyBuyersOwe(fs: FeeSchedule, m: Market, trades: seq<Trade>, buyer: string, user: string)
    requires m.base != m.quote && user != buyer && forall k :: 0 <= k < |trades| ==> trades[k].buyerId == buyer
    ensures OwedAll(fs, m, trades, user, m.quote) == 0.0
    decreases |trades|
  {
    if trades != [] { OnlyBuyersOwe(fs, m, trades[1..], buyer, user); }
  }

  lemma {:induction false} BuyTrades(t: OrderView, fills: seq<Fill>, n: nat, levels: seq<ExtLevel>)
    requires t.side.Buy?
    ensures forall k :: 0 <= k < |TradesOf(t, fills, n)| ==> TradesOf(t, fills, n)[k].buyerId == t.user
    ensures forall k :: 0 <= k < |ExtSweep(t, levels).trades| ==> ExtSweep(t, levels).trades[k].buyerId == t.user
    decreases |fills| + |levels|
  {
    hide Crosses;
    if fills != [] { BuyTrades(t, fills[1..], n + 1, levels); }
    if levels != [] && fills == [] {
      BuyTrades(t, [], n, levels[1..]);
      var amount := Min(t.Open(), levels[0].qty);
      BuyTrades(t.(filled := t.filled + amount, status := if t.filled + amount >= t.qty then Filled else PartiallyFilled), [], n, levels[1..]);
    }
  }

  lemma BuyersTrades(orders: Register, o: OmsOrder, b: BookView, a: Answers)
    requires Meets(orders, o, b) && o.side.Buy?
    ensures forall k :: 0 <= k < |MatchAll(b, LegacyOf(o), a).trades| ==> MatchAll(b, LegacyOf(o), a).trades[k].buyerId == o.user
  {
    hide Match, Refused, Sweep, BookInv, Flat, ExtSweep, AllOk, Unique, AllLinked, TradesOf;
    var t := LegacyOf(o);
    MeetsQueue(orders, o, b);
    var l := Match(b, t);
    var ahead, behind := LocalQueues(b, t);
    BuyTrades(t, Sweep(b.mode, t, b.Queue(Sell)).fills, b.watch.number, []);
    BuyTrades(l.order, [], 0, a.external);
  }

  /** A market buy leaves a covered user short exactly when he is its owner, has open buys, and its trades
      release more than it reserves and he has in excess. */
  lemma MarketBuyIff(fs: FeeSchedule, m: Market, s: Told, o: OmsOrder, a: Answers, user: string)
    requires SpotMarket(m) && ScheduleOk(fs) && Funded(fs, m, s) && Offered(fs, m, s.desk, Place(o, a)) && !Exempt(user)
    requires CoveredFor(fs, m, s.desk, user) && o.side.Buy? && !o.otype.Limit?
    ensures CoveredFor(fs, m, Process(fs, m, s.desk, o, a), user) <==> !MarketShorts(fs, m, s.desk, o, a, user)
    ensures PlaceShorts(fs, m, s.desk, o, a, user) <==> MarketShorts(fs, m, s.desk, o, a, user)
  {
    hide Match, MatchAll, Refused, Accepts, OrderClaim, ScheduleOk, HistoryAgrees, Claim, At, Everywhere, OwedAll,
      Reservation, Process, Reported, BookInv, TradesOk, SettleAll, Unique, AllLinked, Flat;
    var d, t := s.desk, LegacyOf(o);
    PlaceCoveredIff(fs, m, s, o, a, user);
    if Accepts(fs, m, d, o, a) && !Refused(d.book, t) {
      AgreedMeets(d.orders, o, d.book);
      assert Claim(fs, m, d.book, user, m.quote) <= d.funds.Held(user, m.quote);
      ReservationNonNegative(fs, m, d, o, user, m.quote);
      MarketClaim(fs, m, s, o, a, user);
      BuyersTrades(d.orders, o, d.book, a);
      if o.user != user { OnlyBuyersOwe(fs, m, MatchAll(d.book, t, a).trades, o.user, user); }
    }
  }

  /** For a user with no ill-fitting post-only buy, nothing but a market buy of his own leaves him short. */
  lemma ShortsIff(fs: FeeSchedule, m: Market, s: Told, o: OmsOrder, a: Answers, user: string)
    requires SpotMarket(m) && ScheduleOk(fs) && Funded(fs, m, s) && Offered(fs, m, s.desk, Place(o, a)) && !Exempt(user)
    requires CoveredFor(fs, m, s.desk, user)
    requires Modest(fs, m, LegacyOf(o), user, m.quote) && Everywhere(s.desk.book, ModestIn(fs, m, user, m.quote))
    ensures PlaceShorts(fs, m, s.desk, o, a, user) <==> MarketShorts(fs, m, s.desk, o, a, user)
  {
    hide Match, MatchAll, Refused, Accepts, OrderClaim, ScheduleOk, HistoryAgrees, Claim, At, Everywhere, OwedAll,
      Reservation, Process, Reported, BookInv, TradesOk, Modest, SettleAll, Unique, AllLinked, Flat;
    var d, t := s.desk, LegacyOf(o);
    if o.side.Buy? && !o.otype.Limit? {
      MarketBuyIff(fs, m, s, o, a, user);
    } else if Accepts(fs, m, d, o, a) && !Refused(d.book, t) {
      AgreedMeets(d.orders, o, d.book);
      assert Claim(fs, m, d.book, user, m.quote) <= d.funds.Held(user, m.quote);
      Reserved(fs, m, d, o, user, m.quote);
      LimitFits(d.book, t, a);
      MatchCovered(fs, m, d.orders, o, d.book, a, user, m.quote);
    }
  }

  lemma LimitFits(b: BookView, t: OrderView, a: Answers)
    requires !t.side.Buy? || t.otype.Limit?
    ensures FitsAll(b, t, a)
  {}

  /** A market buy that names a price no lower than any it could meet never leaves anybody short. */
  lemma FittingMarketBuy(fs: FeeSchedule, m: Market, s: Told, o: OmsOrder, a: Answers, user: string)
    requires SpotMarket(m) && ScheduleOk(fs) && Funded(fs, m, s) && Offered(fs, m, s.desk, Place(o, a)) && !Exempt(user)
    requires CoveredFor(fs, m, s.desk, user) && FitsAll(s.desk.book, LegacyOf(o), a)
    requires Modest(fs, m, LegacyOf(o), user, m.quote) && Everywhere(s.desk.book, ModestIn(fs, m, user, m.quote))
    ensures !PlaceShorts(fs, m, s.desk, o, a, user)
  {
    hide Match, MatchAll, Refused, Accepts, OrderClaim, ScheduleOk, HistoryAgrees, Claim, At, Everywhere, OwedAll,
      Reservation, FitsAll, BookInv, Modest, Unique, AllLinked, Flat;
    var d := s.desk;
    if Accepts(fs, m, d, o, a) && !Refused(d.book, LegacyOf(o)) {
      AgreedMeets(d.orders, o, d.book);
      assert Claim(fs, m, d.book, user, m.quote) <= d.funds.Held(user, m.quote);
      Reserved(fs, m, d, o, user, m.quote);
      MatchCovered(fs, m, d.orders, o, d.book, a, user, m.quote);
    }
  }

  // ---------------------------------------------------------------------------
  // Cancels
  // ---------------------------------------------------------------------------

  /** The first order named `id`. */
  function First(q: seq<OrderView>, id: string): (r: OrderView)
    requires Has(q, id)
    ensures r in q && r.id == id
  {
    if q[0].id == id then q[0]
    else
      assert Has(q[1..], id) by {
        var i :| 0 <= i < |q| && q[i].id == id;
        assert q[1..][i - 1].id == id;
      }
      First(q[1..], id)
  }

  lemma {:induction false} WithoutClaim(fs: FeeSchedule, m: Market, q: seq<OrderView>, id: string, user: string, asset: string)
    requires Has(q, id)
    ensures QueueClaim(fs, m, q, user, asset) ==
      QueueClaim(fs, m, Without(q, id), user, asset) + OrderClaim(fs, m, First(q, id), user, asset)
    decreases |q|
  {
    hide OrderClaim;
    if q[0].id != id {
      assert Has(q[1..], id) by {
        var i :| 0 <= i < |q| && q[i].id == id;
        assert q[1..][i - 1].id == id;
      }
      WithoutClaim(fs, m, q[1..], id, user, asset);
      ClaimPush(fs, m, q[0], Without(q[1..], id), user, asset);
    }
  }

  /** The order a cancel takes off the book. */
  function Target(b: BookView, id: string): OrderView
    requires Has(b.Queue(Buy), id) || Has(b.Queue(Sell), id)
  {
    if Has(b.Queue(Buy), id) then First(b.Queue(Buy), id) else First(b.Queue(Sell), id)
  }

  lemma CancelFrees(fs: FeeSchedule, m: Market, b: BookView, id: string, user: string, asset: string)
    requires b.watch.stops == [] && Book.Cancel(b, id).1
    ensures Has(b.Queue(Buy), id) || Has(b.Queue(Sell), id)
    ensures Claim(fs, m, b, user, asset) ==
      Claim(fs, m, Book.Cancel(b, id).0, user, asset) + OrderClaim(fs, m, Target(b, id), user, asset)
  {
    hide OrderClaim, QueueClaim, Flat, Cancel, Without, Has, First;
    CancelQueues(b, id);
    if Has(b.Queue(Buy), id) {
      WithoutClaim(fs, m, b.Queue(Buy), id, user, asset);
    } else {
      WithoutClaim(fs, m, b.Queue(Sell), id, user, asset);
    }
  }

  lemma CancelledLinked(orders: Register, b: BookView, id: string)
    requires BookAgrees(orders, b) && Everywhere(b, PricedOnes()) && (Has(b.Queue(Buy), id) || Has(b.Queue(Sell), id))
    ensures
      var r := Target(b, id);
      id in orders && Linked(orders[id], r) && 0.0 < r.Open() && r.price >= 0.0
  {
    hide Flat, Has, First, Unique, BookInv, AllOk, Linked, Priced, Everywhere;
    SidesPriced(b);
    var side := if Has(b.Queue(Buy), id) then Buy else Sell;
    assert Target(b, id) == First(b.Queue(side), id) && Target(b, id) in b.Queue(side);
    var i :| 0 <= i < |b.Queue(side)| && b.Queue(side)[i] == Target(b, id);
    MemberFacts(orders, b.Queue(side), side, i);
  }

  lemma MemberFacts(orders: Register, q: seq<OrderView>, side: Side, i: nat)
    requires AllLinked(orders, q) && PricedQueue(q, side) && i < |q|
    ensures q[i].id in orders && Linked(orders[q[i].id], q[i]) && 0.0 < q[i].Open() && q[i].price >= 0.0
  {}

  /** The asset an order claims. */
  function ClaimedAsset(m: Market, side: Side): string { if side.Buy? then m.quote else m.base }

  lemma CostIsClaim(fs: FeeSchedule, m: Market, rec: OmsOrder, r: OrderView, user: string, asset: string)
    requires Linked(rec, r) && 0.0 < r.Open()
    ensures OrderClaim(fs, m, r, user, asset) == If(user == rec.user && asset == ClaimedAsset(m, rec.side), OpenCost(fs, rec))
  {
    hide LastTier, CostOf;
  }

  /** What a cancel request that finds its order does to the claims and the holds of a user. */
  lemma WithdrawAt(fs: FeeSchedule, m: Market, s: Told, id: string, unstored: bool, user: string, asset: string)
    requires SpotMarket(m) && ScheduleOk(fs) && Funded(fs, m, s) && !Exempt(user)
    requires id in s.desk.orders && Book.Cancel(s.desk.book, id).1
    ensures
      var d, rec, after := s.desk, s.desk.orders[id], Withdraw(fs, s.desk, id, unstored);
      CanMove(rec.stage, Withdrawn) && OpenCost(fs, rec) >= 0.0 &&
      Claim(fs, m, after.book, user, asset) ==
        Claim(fs, m, d.book, user, asset) - If(user == rec.user && asset == ClaimedAsset(m, rec.side), OpenCost(fs, rec)) &&
      after.funds.Held(user, asset) ==
        if !unstored && user == rec.user && asset == NamedAsset(rec) then Floor(d.funds.Held(user, asset) - OpenCost(fs, rec))
        else d.funds.Held(user, asset)
  {
    hide Cancel, Has, HistoryAgrees, OrderClaim, Claim, At, ReleaseOpen, ScheduleOk, Target, BookInv, AllOk, Unique, AllLinked, Flat,
      SoundBook, Everywhere, OpenCost;
    var d := s.desk;
    FundedBook(fs, m, s, user, asset);
    CancelFrees(fs, m, d.book, id, user, asset);
    CancelledLinked(d.orders, d.book, id);
    CostIsClaim(fs, m, d.orders[id], Target(d.book, id), user, asset);
    CostNonNegative(fs, d.orders[id]);
    ReleaseOpenAt(fs, d.funds, d.orders[id], user, asset);
  }

  /** Does a cancel leave a user's open orders short?  Only by releasing the asset of his other orders. */
  predicate CancelShorts(fs: FeeSchedule, m: Market, d: Desk, id: string, unstored: bool, user: string) {
    id in d.orders && Book.Cancel(d.book, id).1 && !unstored && d.orders[id].user == user &&
    NamedAsset(d.orders[id]) != ClaimedAsset(m, d.orders[id].side) &&
    Claim(fs, m, d.book, user, NamedAsset(d.orders[id])) > 0.0 &&
    Claim(fs, m, d.book, user, NamedAsset(d.orders[id])) + OpenCost(fs, d.orders[id]) > d.funds.Held(user, NamedAsset(d.orders[id]))
  }

  lemma WithdrawCoveredIff(fs: FeeSchedule, m: Market, s: Told, id: string, unstored: bool, user: string)
    requires SpotMarket(m) && ScheduleOk(fs) && Funded(fs, m, s) && !Exempt(user) && CoveredFor(fs, m, s.desk, user)
    ensures CoveredFor(fs, m, Withdraw(fs, s.desk, id, unstored), user) <==> !CancelShorts(fs, m, s.desk, id, unstored, user)
  {
    hide Cancel, Claim, At, ReleaseOpen, ScheduleOk, Funded, OpenCost, Withdraw, Funds.Held;
    var d, after := s.desk, Withdraw(fs, s.desk, id, unstored);
    if id in d.orders && Book.Cancel(d.book, id).1 {
      var rec := d.orders[id];
      forall asset
        ensures Claim(fs, m, after.book, user, asset) <= after.funds.Held(user, asset) <==>
          !(asset == NamedAsset(rec) && CancelShorts(fs, m, d, id, unstored, user))
      {
        assert Claim(fs, m, d.book, user, asset) <= d.funds.Held(user, asset);
        WithdrawAt(fs, m, s, id, unstored, user, asset);
        AfterClaim(fs, m, s, id, unstored, user, asset);
      }
      assert CoveredFor(fs, m, after, user) ==> Claim(fs, m, after.book, user, NamedAsset(rec)) <= after.funds.Held(user, NamedAsset(rec));
    } else {
      NotFound(fs, d, id, unstored);
    }
  }

  lemma NotFound(fs: FeeSchedule, d: Desk, id: string, unstored: bool)
    requires !(id in d.orders && Book.Cancel(d.book, id).1)
    ensures Withdraw(fs, d, id, unstored) == d
  {
    hide Cancel;
  }

  lemma AfterClaim(fs: FeeSchedule, m: Market, s: Told, id: string, unstored: bool, user: string, asset: string)
    requires SpotMarket(m) && ScheduleOk(fs) && Funded(fs, m, s) && !Exempt(user)
    ensures Claim(fs, m, Withdraw(fs, s.desk, id, unstored).book, user, asset) >= 0.0
  {
    hide Claim, ScheduleOk, Funded, Withdraw;
    TellFunded(fs, m, s, Withdrawal(id, unstored));
    FundedBook(fs, m, Tell(fs, m, s, Withdrawal(id, unstored)), user, asset);
    BookClaim(fs, m, Withdraw(fs, s.desk, id, unstored).book, user, asset);
  }

  /** A stored cancel frees the hold of its own order exactly when the market's asset is the one it names:
      a buy when the quote asset is USDT, a sell when the base asset is BTC. */
  lemma CancelFreesIff(fs: FeeSchedule, m: Market, s: Told, id: string)
    requires SpotMarket(m) && ScheduleOk(fs) && Funded(fs, m, s)
    requires id in s.desk.orders && Book.Cancel(s.desk.book, id).1 && !Exempt(s.desk.orders[id].user)
    requires
      var rec := s.desk.orders[id];
      CoveredFor(fs, m, s.desk, rec.user) && OpenCost(fs, rec) > 0.0
    ensures
      var rec := s.desk.orders[id];
      var asset := ClaimedAsset(m, rec.side);
      Withdraw(fs, s.desk, id, false).funds.Held(rec.user, asset) == s.desk.funds.Held(rec.user, asset) - OpenCost(fs, rec) <==>
      if rec.side.Buy? then m.quote == "USDT" else m.base == "BTC"
  {
    hide Cancel, Claim, At, ScheduleOk, Funded, OpenCost, Withdraw, Funds.Held;
    var rec := s.desk.orders[id];
    var asset := ClaimedAsset(m, rec.side);
    WithdrawAt(fs, m, s, id, false, rec.user, asset);
    AfterClaim(fs, m, s, id, false, rec.user, asset);
    assert Claim(fs, m, s.desk.book, rec.user, asset) <= s.desk.funds.Held(rec.user, asset);
  }

  // ---------------------------------------------------------------------------
  // Runs
  // ---------------------------------------------------------------------------

  /** The requests after which a user's open orders are no longer covered. */
  predicate Overdraws(fs: FeeSchedule, m: Market, d: Desk, r: Request, user: string) {
    match r
    case Place(o, a) => PlaceShorts(fs, m, d, o, a, user)
    case Withdrawal(id, unstored) => CancelShorts(fs, m, d, id, unstored, user)
    case _ => false
  }

  lemma QuietCovered(fs: FeeSchedule, m: Market, s: Told, r: Request, user: string)
    requires Agreed(s) && (r.DepositFunds? || r.UseMode? || r.StopRuns?) && CoveredFor(fs, m, s.desk, user)
    ensures CoveredFor(fs, m, Serve(fs, m, s.desk, r), user)
  {
    hide HistoryAgrees, SoundBook, Unique, AllLinked, At, Flat, QueueClaim;
    forall asset ensures
      var after := Serve(fs, m, s.desk, r);
      Claim(fs, m, after.book, user, asset) <= after.funds.Held(user, asset)
    {
      assert Claim(fs, m, s.desk.book, user, asset) <= s.desk.funds.Held(user, asset);
      match r {
        case UseMode(mode) =>
          var b := s.desk.book;
          assert b.(mode := mode).Queue(Buy) == b.Queue(Buy) && b.(mode := mode).Queue(Sell) == b.Queue(Sell);
        case _ =>
      }
    }
  }

  /** A covered user is covered after a request exactly when it does not overdraw him. */
  lemma StepCoveredIff(fs: FeeSchedule, m: Market, s: Told, r: Request, user: string)
    requires SpotMarket(m) && ScheduleOk(fs) && Funded(fs, m, s) && Offered(fs, m, s.desk, r) && !Exempt(user)
    requires CoveredFor(fs, m, s.desk, user)
    ensures CoveredFor(fs, m, Tell(fs, m, s, r).desk, user) <==> !Overdraws(fs, m, s.desk, r, user)
  {
    hide CoveredFor, Process, Withdraw, Agreed, FundsOk, ScheduleOk, PlaceShorts, CancelShorts, Reported;
    match r
    case Place(o, a) => PlaceCoveredIff(fs, m, s, o, a, user);
    case Withdrawal(id, unstored) => WithdrawCoveredIff(fs, m, s, id, unstored, user);
    case _ => QuietCovered(fs, m, s, r, user);
  }

  ghost predicate AllOffered(fs: FeeSchedule, m: Market, s: Told, rs: seq<Request>)
    decreases |rs|
  {
    rs == [] || (Offered(fs, m, s.desk, rs[0]) && AllOffered(fs, m, Tell(fs, m, s, rs[0]), rs[1..]))
  }

  /** Is a user covered all along a run? */
  ghost predicate StaysCovered(fs: FeeSchedule, m: Market, s: Told, rs: seq<Request>, user: string)
    decreases |rs|
  {
    CoveredFor(fs, m, s.desk, user) && (rs == [] || StaysCovered(fs, m, Tell(fs, m, s, rs[0]), rs[1..], user))
  }

  predicate SomeOverdraws(fs: FeeSchedule, m: Market, s: Told, rs: seq<Request>, user: string)
    decreases |rs|
  {
    rs != [] && (Overdraws(fs, m, s.desk, rs[0], user) || SomeOverdraws(fs, m, Tell(fs, m, s, rs[0]), rs[1..], user))
  }

  /** In every spot market, with any mix of requests: a covered user stays covered all along a run if and
      only if no request of it overdraws him. */
  lemma {:induction false} CoveredThroughout(fs: FeeSchedule, m: Market, s: Told, rs: seq<Request>, user: string)
    requires SpotMarket(m) && ScheduleOk(fs) && Funded(fs, m, s) && AllOffered(fs, m, s, rs) && !Exempt(user)
    requires CoveredFor(fs, m, s.desk, user)
    ensures StaysCovered(fs, m, s, rs, user) <==> !SomeOverdraws(fs, m, s, rs, user)
    ensures Funded(fs, m, TellAll(fs, m, s, rs))
    decreases |rs|
  {
    hide CoveredFor, Overdraws, Funded, Offered, SpotMarket, ScheduleOk, Tell;
    if rs != [] {
      var t := Tell(fs, m, s, rs[0]);
      TellFunded(fs, m, s, rs[0]);
      StepCoveredIff(fs, m, s, rs[0], user);
      if CoveredFor(fs, m, t.desk, user) {
        CoveredThroughout(fs, m, t, rs[1..], user);
      } else {
        AllFunded(fs, m, t, rs[1..]);
      }
    }
  }

  lemma {:induction false} AllFunded(fs: FeeSchedule, m: Market, s: Told, rs: seq<Request>)
    requires SpotMarket(m) && ScheduleOk(fs) && Funded(fs, m, s) && AllOffered(fs, m, s, rs)
    ensures Funded(fs, m, TellAll(fs, m, s, rs))
    decreases |rs|
  {
    hide Funded, Offered, SpotMarket, ScheduleOk, Tell;
    if rs != [] {
      TellFunded(fs, m, s, rs[0]);
      AllFunded(fs, m, Tell(fs, m, s, rs[0]), rs[1..]);
    }
  }

  // ---------------------------------------------------------------------------
  // Users whose reservations fit
  // ---------------------------------------------------------------------------

  lemma {:induction false} QueueElsewhere(fs: FeeSchedule, m: Market, q: seq<OrderView>, user: string, asset: string)
    requires asset != m.base && asset != m.quote
    ensures QueueClaim(fs, m, q, user, asset) == 0.0
    decreases |q|
  {
    hide ClaimRate, CostOf;
    if q != [] { QueueElsewhere(fs, m, q[1..], user, asset); }
  }

  /** Cancels name USDT for buys and BTC for sells: harmless where these are not the other asset. */
  predicate NamesFit(m: Market) { m.quote != "BTC" && m.base != "USDT" }

  lemma CancelFits(fs: FeeSchedule, m: Market, d: Desk, id: string, unstored: bool, user: string)
    requires NamesFit(m)
    ensures !CancelShorts(fs, m, d, id, unstored, user)
  {
    hide Cancel, QueueClaim, OpenCost, Flat;
    if id in d.orders && NamedAsset(d.orders[id]) != ClaimedAsset(m, d.orders[id].side) {
      QueueElsewhere(fs, m, d.book.Queue(Buy), user, NamedAsset(d.orders[id]));
      QueueElsewhere(fs, m, d.book.Queue(Sell), user, NamedAsset(d.orders[id]));
    }
  }

  /** A submission that is no post-only buy of the user's at a maker rate below his taker rate. */
  predicate Fitting(fs: FeeSchedule, m: Market, r: Request, user: string) {
    r.Place? ==> Modest(fs, m, LegacyOf(r.order), user, m.quote)
  }

  lemma ModestIsCarried(fs: FeeSchedule, m: Market, user: string, asset: string)
    ensures Carried(ModestIn(fs, m, user, asset))
  {}

  lemma TellModest(fs: FeeSchedule, m: Market, s: Told, r: Request, user: string)
    requires SpotMarket(m) && ScheduleOk(fs) && Funded(fs, m, s) && Offered(fs, m, s.desk, r) && !Exempt(user)
    requires Everywhere(s.desk.book, ModestIn(fs, m, user, m.quote)) && Fitting(fs, m, r, user)
    ensures Everywhere(Tell(fs, m, s, r).desk.book, ModestIn(fs, m, user, m.quote))
  {
    hide Match, MatchAll, Cancel, HistoryAgrees, ScheduleOk, Everywhere, BookInv, Flat, Process, Unique, AllLinked, SettleAll, OwedAll,
      Reservation, Reported, Accepts, Refused, Modest, ReleaseOpen;
    var d := s.desk;
    match r
    case Place(o, a) =>
      ModestIsCarried(fs, m, user, m.quote);
      FundedBook(fs, m, s, user, m.quote);
      MatchAllCarries(d.book, LegacyOf(o), a, ModestIn(fs, m, user, m.quote));
      if Accepts(fs, m, d, o, a) { PlaceHeld(fs, m, s, o, a, user, m.quote); } else { QuietPlace(fs, m, d, o, a); }
    case Withdrawal(id, unstored) => CancelCarries(d.book, id, ModestIn(fs, m, user, m.quote));
    case UseMode(mode) => ModeModest(fs, m, d.book, mode, user);
    case _ =>
  }

  lemma ModeModest(fs: FeeSchedule, m: Market, b: BookView, mode: STPMode, user: string)
    requires Everywhere(b, ModestIn(fs, m, user, m.quote))
    ensures Everywhere(b.(mode := mode), ModestIn(fs, m, user, m.quote))
  {
    hide Flat;
    assert b.(mode := mode).Queue(Buy) == b.Queue(Buy) && b.(mode := mode).Queue(Sell) == b.Queue(Sell);
  }

  predicate SomeMarketShorts(fs: FeeSchedule, m: Market, s: Told, rs: seq<Request>, user: string)
    decreases |rs|
  {
    rs != [] &&
    ((rs[0].Place? && MarketShorts(fs, m, s.desk, rs[0].order, rs[0].answers, user)) ||
     SomeMarketShorts(fs, m, Tell(fs, m, s, rs[0]), rs[1..], user))
  }

  lemma FittingOverdraws(fs: FeeSchedule, m: Market, s: Told, r: Request, user: string)
    requires SpotMarket(m) && NamesFit(m) && ScheduleOk(fs) && Funded(fs, m, s) && Offered(fs, m, s.desk, r) && !Exempt(user)
    requires CoveredFor(fs, m, s.desk, user) && Fitting(fs, m, r, user)
    requires Everywhere(s.desk.book, ModestIn(fs, m, user, m.quote))
    ensures Overdraws(fs, m, s.desk, r, user) <==> r.Place? && MarketShorts(fs, m, s.desk, r.order, r.answers, user)
  {
    hide CoveredFor, Funded, ScheduleOk, PlaceShorts, CancelShorts, MarketShorts, Everywhere, Modest, SpotMarket, NamesFit;
    match r
    case Place(o, a) => ShortsIff(fs, m, s, o, a, user);
    case Withdrawal(id, unstored) => CancelFits(fs, m, s.desk, id, unstored, user);
    case _ =>
  }

  /** Through every run of deposits, limit and market submissions and cancels, with any time in force, in
      any self-trade mode, with fees in the quote asset or in VLX, and external liquidity or none: what the
      open orders of a user may still cost is covered by the user's holds all along, if and only if none
      of the user's market buys releases more than it reserves and the user has in excess.  The user's own
      post-only buys must fit his rates; what others do does not matter. */
  lemma {:induction false} EveryOrderStaysBacked(fs: FeeSchedule, m: Market, s: Told, rs: seq<Request>, user: string)
    requires SpotMarket(m) && NamesFit(m) && ScheduleOk(fs) && Funded(fs, m, s) && AllOffered(fs, m, s, rs) && !Exempt(user)
    requires CoveredFor(fs, m, s.desk, user) && Everywhere(s.desk.book, ModestIn(fs, m, user, m.quote))
    requires forall i :: 0 <= i < |rs| ==> Fitting(fs, m, rs[i], user)
    ensures StaysCovered(fs, m, s, rs, user) <==> !SomeMarketShorts(fs, m, s, rs, user)
    decreases |rs|
  {
    hide CoveredFor, Overdraws, Funded, Offered, SpotMarket, ScheduleOk, Tell, MarketShorts, Everywhere, NamesFit, Fitting;
    if rs != [] {
      var t := Tell(fs, m, s, rs[0]);
      TellFunded(fs, m, s, rs[0]);
      StepCoveredIff(fs, m, s, rs[0], user);
      FittingOverdraws(fs, m, s, rs[0], user);
      if CoveredFor(fs, m, t.desk, user) {
        TellModest(fs, m, s, rs[0], user);
        EveryOrderStaysBacked(fs, m, t, rs[1..], user);
      }
    }
  }

  lemma {:induction false} CoveredAtEnd(fs: FeeSchedule, m: Market, s: Told, rs: seq<Request>, user: string)
    requires StaysCovered(fs, m, s, rs, user)
    ensures CoveredFor(fs, m, TellAll(fs, m, s, rs).desk, user)
    decreases |rs|
  {
    hide CoveredFor, Tell;
    if rs != [] { CoveredAtEnd(fs, m, Tell(fs, m, s, rs[0]), rs[1..], user); }
  }

  /** Trading starts solvent: an empty book, no orders, and deposits only. */
  lemma EmptyIsSolvent(fs: FeeSchedule, m: Market, balances: Sheet)
    requires forall user, asset :: At(balances, user, asset) >= 0.0
    ensures
      var book := BookView(CancelNewest, [], [], Watch([], [], 0.0, 0));
      Solvent(fs, m, Told(Desk(book, Funds(balances, map[]), map[], 0.0, map[]), [], map[]))
  {
    var book := BookView(CancelNewest, [], [], Watch([], [], 0.0, 0));
    EmptyIsFunded(fs, m, balances);
    forall id ensures Ids(book.Queue(Buy))[id] + Ids(book.Queue(Sell))[id] <= 1 {}
    forall user, asset ensures Claim(fs, m, book, user, asset) == 0.0 {}
  }

  // ---------------------------------------------------------------------------
  // What a submission moves
  // ---------------------------------------------------------------------------

  /** Do the holds, the reservation included, cover what the trades of a submission release? */
  predicate Pays(fs: FeeSchedule, m: Market, d: Desk, o: OmsOrder, a: Answers, user: string) {
    OwedAll(fs, m, MatchAll(d.book, LegacyOf(o), a).trades, user, m.quote) <=
      d.funds.Held(user, m.quote) + Reservation(fs, m, d, o, user, m.quote)
  }

  /** Booking an accepted order takes exactly what its trades release out of a covered user's hold of the
      quote asset if and only if the hold covers it; then nothing is cut off at zero: every hold goes down
      by what the trades release and every balance changes by what was traded and charged. */
  lemma PlaceIsExactIff(fs: FeeSchedule, m: Market, s: Told, o: OmsOrder, a: Answers, user: string)
    requires SpotMarket(m) && ScheduleOk(fs) && Funded(fs, m, s) && Offered(fs, m, s.desk, Place(o, a)) && !Exempt(user)
    requires Accepts(fs, m, s.desk, o, a) && CoveredFor(fs, m, s.desk, user)
    requires s.desk.book.mode.Allow? ==> fs.payInNative == {}
    ensures
      var before, after := s.desk.funds, Process(fs, m, s.desk, o, a).funds;
      var trades := Reported(fs, m, s.desk, Place(o, a));
      var left := before.Held(user, m.quote) + Reservation(fs, m, s.desk, o, user, m.quote) - OwedAll(fs, m, trades, user, m.quote);
      after.Held(user, m.quote) == left <==> Pays(fs, m, s.desk, o, a, user)
    ensures Pays(fs, m, s.desk, o, a, user) ==> forall asset ::
      var before, after := s.desk.funds, Process(fs, m, s.desk, o, a).funds;
      var trades := Reported(fs, m, s.desk, Place(o, a));
      after.Held(user, asset) == before.Held(user, asset) + Reservation(fs, m, s.desk, o, user, asset) - OwedAll(fs, m, trades, user, asset) &&
      after.Balance(user, asset) ==
        before.Balance(user, asset) + ReceivedAll(fs, m, Reserve(fs, m, s.desk, o), trades, user, asset)
  {
    hide MatchAll, Accepts, Reserve, OrderClaim, SettleAll, ScheduleOk, BookAgrees, HistoryAgrees, Claim, At, Everywhere, OwedAll,
      ReceivedAll, Process, Reported, Reservation, BookInv, TradesOk, SingleAll, Required, CanReserve;
    var d, f := s.desk, Reserve(fs, m, s.desk, o);
    PlaceHeld(fs, m, s, o, a, user, m.quote);
    if Pays(fs, m, d, o, a, user) {
      FundedBook(fs, m, s, user, m.quote);
      AcceptedReserves(fs, m, d, o, a);
      ReserveSane(fs, m, d, o, user);
      AllTradesOk(fs, d.book, LegacyOf(o), a, user);
      var trades := MatchAll(d.book, LegacyOf(o), a).trades;
      forall asset ensures OwedAll(fs, m, trades, user, asset) <= f.Held(user, asset) {
        ReserveAt(fs, m, d, o, user, asset);
        if asset != m.quote { BasePays(fs, m, s, o, a, user, asset); }
      }
      forall asset ensures
        var after := Process(fs, m, d, o, a).funds;
        after.Held(user, asset) == d.funds.Held(user, asset) + Reservation(fs, m, d, o, user, asset) - OwedAll(fs, m, trades, user, asset) &&
        after.Balance(user, asset) == d.funds.Balance(user, asset) + ReceivedAll(fs, m, f, trades, user, asset)
      {
        ReserveAt(fs, m, d, o, user, asset);
        SettleAllExact(fs, m, f, trades, user, asset);
      }
    }
  }

  /** What a buyer is charged is taken from the balance of the quote asset in full if and only if it covers
      it.  A market buy that names no price reserves nothing, so nothing asks that it does. */
  lemma BuyPaysIff(fs: FeeSchedule, m: Market, s: Told, o: OmsOrder, a: Answers)
    requires SpotMarket(m) && ScheduleOk(fs) && Funded(fs, m, s) && Offered(fs, m, s.desk, Place(o, a)) && !Exempt(o.user)
    requires Accepts(fs, m, s.desk, o, a) && !Refused(s.desk.book, LegacyOf(o)) && o.side.Buy? && !s.desk.book.mode.Allow?
    ensures
      var before, after := s.desk.funds, Process(fs, m, s.desk, o, a).funds;
      var paid := ReceivedAll(fs, m, Reserve(fs, m, s.desk, o), Reported(fs, m, s.desk, Place(o, a)), o.user, m.quote);
      after.Balance(o.user, m.quote) == Floor(before.Balance(o.user, m.quote) + paid) &&
      (after.Balance(o.user, m.quote) == before.Balance(o.user, m.quote) + paid <==> 0.0 <= before.Balance(o.user, m.quote) + paid)
  {
    hide MatchAll, Accepts, Refused, Reserve, SettleAll, ScheduleOk, BookAgrees, HistoryAgrees, At, Everywhere, OwedAll,
      ReceivedAll, Process, Reported, Reservation, BookInv, TradesOk, Required, CanReserve;
    var d, f := s.desk, Reserve(fs, m, s.desk, o);
    PlaceHeld(fs, m, s, o, a, o.user, m.quote);
    FundedBook(fs, m, s, o.user, m.quote);
    AgreedMeets(d.orders, o, d.book);
    BuyersTrades(d.orders, o, d.book, a);
    TradesApart(d.book, LegacyOf(o), a, o.user);
    ReserveAt(fs, m, d, o, o.user, m.quote);
    ReservationNonNegative(fs, m, d, o, o.user, m.quote);
    SettleAllPays(fs, m, f, MatchAll(d.book, LegacyOf(o), a).trades, o.user);
  }

  lemma AcceptedReserves(fs: FeeSchedule, m: Market, d: Desk, o: OmsOrder, a: Answers)
    requires Accepts(fs, m, d, o, a)
    ensures o.user == LIQUIDATOR || CanReserve(fs, m, d, o)
  {}

  lemma BasePays(fs: FeeSchedule, m: Market, s: Told, o: OmsOrder, a: Answers, user: string, asset: string)
    requires SpotMarket(m) && ScheduleOk(fs) && Funded(fs, m, s) && Offered(fs, m, s.desk, Place(o, a)) && !Exempt(user)
    requires Accepts(fs, m, s.desk, o, a) && Claim(fs, m, s.desk.book, user, asset) <= s.desk.funds.Held(user, asset)
    requires asset != m.quote
    ensures OwedAll(fs, m, MatchAll(s.desk.book, LegacyOf(o), a).trades, user, asset) <=
      s.desk.funds.Held(user, asset) + Reservation(fs, m, s.desk, o, user, asset)
  {
    hide Match, MatchAll, Refused, Accepts, OrderClaim, ScheduleOk, BookAgrees, HistoryAgrees, Claim, At, Everywhere, OwedAll,
      Reservation, Process, Reported, BookInv, TradesOk, Modest, SettleAll;
    var d, t := s.desk, LegacyOf(o);
    FundedBook(fs, m, s, user, asset);
    Reserved(fs, m, d, o, user, asset);
    if Refused(d.book, t) {
      RefusedAll(d.book, t, a);
      NothingOwed(fs, m, user, asset);
    } else {
      AgreedMeets(d.orders, o, d.book);
      ModestEverywhere(fs, m, d.book, user, asset);
      PriceIsModest(fs, m, t, user, asset);
      MatchCovered(fs, m, d.orders, o, d.book, a, user, asset);
      PlaceHeld(fs, m, s, o, a, user, asset);
      TellFunded(fs, m, s, Place(o, a));
      FundedBook(fs, m, Tell(fs, m, s, Place(o, a)), user, asset);
      BookClaim(fs, m, MatchAll(d.book, t, a).book, user, asset);
    }
  }

  lemma NothingOwed(fs: FeeSchedule, m: Market, user: string, asset: string)
    ensures OwedAll(fs, m, [], user, asset) == 0.0
  {}

  /** Submissions that fit pay for themselves, but for the user's own market buys. */
  lemma FittingPays(fs: FeeSchedule, m: Market, s: Told, o: OmsOrder, a: Answers, user: string)
    requires SpotMarket(m) && ScheduleOk(fs) && Funded(fs, m, s) && Offered(fs, m, s.desk, Place(o, a)) && !Exempt(user)
    requires Accepts(fs, m, s.desk, o, a) && CoveredFor(fs, m, s.desk, user) && (o.user == user ==> !o.side.Buy? || o.otype.Limit?)
    requires Modest(fs, m, LegacyOf(o), user, m.quote) && Everywhere(s.desk.book, ModestIn(fs, m, user, m.quote))
    ensures Pays(fs, m, s.desk, o, a, user)
  {
    hide Match, MatchAll, Refused, Accepts, OrderClaim, ScheduleOk, BookAgrees, HistoryAgrees, Claim, At, Everywhere, OwedAll,
      Reservation, Process, Reported, BookInv, TradesOk, Modest, SettleAll, FitsAll;
    var d, t := s.desk, LegacyOf(o);
    FundedBook(fs, m, s, user, m.quote);
    Reserved(fs, m, d, o, user, m.quote);
    assert Claim(fs, m, d.book, user, m.quote) <= d.funds.Held(user, m.quote);
    if Refused(d.book, t) {
      RefusedAll(d.book, t, a);
      NothingOwed(fs, m, user, m.quote);
    } else {
      AgreedMeets(d.orders, o, d.book);
      if o.user == user { LimitFits(d.book, t, a); }
      MatchCovered(fs, m, d.orders, o, d.book, a, user, m.quote);
      PlaceHeld(fs, m, s, o, a, user, m.quote);
      TellFunded(fs, m, s, Place(o, a));
      FundedBook(fs, m, Tell(fs, m, s, Place(o, a)), user, m.quote);
      BookClaim(fs, m, MatchAll(d.book, t, a).book, user, m.quote);
    }
  }

  /** A post-only buy reserves at the maker rate, but a trade releases at the taker rate, so filling it at
      its own price releases more than it reserved exactly when the taker rate is the higher one. */
  lemma PostOnlyBuyIsShort(fs: FeeSchedule, m: Market, leverages: Sheet, o: OmsOrder, t: Trade)
    requires SpotMarket(m) && o.side.Buy? && o.postOnly
    requires t.buyerId == o.user && t.sellerId != o.user && t.qty == o.qty && t.price == o.price && Value(t) > 0.0
    ensures Owed(fs, m, t, o.user, m.quote) > Required(fs, m, leverages, o).1 <==>
      fs.RatesOf(o.user).taker > fs.RatesOf(o.user).maker
  {
    hide LastTier, RawFee, CostOf, Value;
    var taker, maker := fs.RatesOf(o.user).taker, fs.RatesOf(o.user).maker;
    CostIsPayment(t, maker);
    RateOrder(Value(t), taker, maker);
  }

  lemma RateOrder(value: real, a: real, b: real)
    requires value > 0.0
    ensures RawFee(value, a) > RawFee(value, b) <==> a > b
  {
    var d := a - b;
    assert value * a - value * b == value * d;
    if d > 0.0 { Scaled(value, d); } else { Scales(d, 0.0, value); }
  }

  lemma Scaled(a: real, b: real)
    requires a > 0.0 && b > 0.0
    ensures a * b > 0.0
  {}
}
