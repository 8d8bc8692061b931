/** Holds stay within balances: whatever is submitted, filled and cancelled, and however short a user's
    funds are, no balance falls below what is held of it. */
module Funding {
  import opened Book
  import opened Priority
  import opened BookInvariant
  import opened Modifiers
  import opened BookQueues
  import opened Accounts
  import opened Execution
  import opened OmsState
  import opened Desk
  import opened DeskRuns
  import opened DeskQueues
  import opened Claims
  import opened Payments

  predicate PricesOk(levels: seq<ExtLevel>) { forall i :: 0 <= i < |levels| ==> levels[i].price >= 0.0 }

  /** Self-trades can do no harm when nobody pays fees in VLX, or nobody has VLX on hold. */
  ghost predicate MayAllow(fs: FeeSchedule, m: Market, f: Funds) {
    fs.payInNative == {} || forall user :: !Exempt(user) ==> VlxFree(m, f, user)
  }

  predicate RecordsPriced(orders: Register) { forall id :: id in orders ==> orders[id].price >= 0.0 }

  ghost predicate FundsOk(fs: FeeSchedule, m: Market, d: Desk) {
    SoundBook(d.book) && Everywhere(d.book, PricedOnes()) && RecordsPriced(d.orders) && (forall user :: !Exempt(user) ==> Sane(d.funds, user)) &&
    (d.book.mode.Allow? ==> MayAllow(fs, m, d.funds))
  }

  /** Requests with sensible quantities, prices and amounts. */
  ghost predicate Sensible(fs: FeeSchedule, m: Market, d: Desk, r: Request) {
    match r
    case Place(o, a) => WellPosed(d, r) && o.price >= 0.0 && (IsStop(o.otype) ==> TriggerPrice(o) >= 0.0) && PricesOk(a.external)
    case DepositFunds(_, _, amount) => amount >= 0.0
    case UseMode(mode) => mode.Allow? ==> MayAllow(fs, m, d.funds)
    case _ => true
  }

  lemma PricedIsCarried()
    ensures Carried(PricedOnes())
  {}

  // ---------------------------------------------------------------------------
  // The trades of a submission
  // ---------------------------------------------------------------------------

  lemma LocalTradeOk(b: BookView, o: OrderView, k: nat)
    requires BookInv(b) && OrderOk(o) && Everywhere(b, PricedOnes()) && k < |Match(b, o).trades|
    ensures TradeOk(Match(b, o).trades[k])
  {
    hide Match, Refused, Sweep, BookInv, Flat, Crosses;
    if Refused(b, o) {
      RefusedMatch(b, o);
    } else {
      var q := b.Queue(o.side.Opposite());
      var fills := Sweep(b.mode, o, q).fills;
      MatchQueues(b, o);
      TradesMirrorFills(o, fills, b.watch.number);
      QueueOpen(b, o.side.Opposite());
      FillsAreFair(b.mode, o, q);
      var f := fills[k];
      var i :| 0 <= i < |q| && f.makerId == q[i].id && f.makerUser == q[i].user && f.price == q[i].price;
      assert Priced(q[i]);
    }
  }

  lemma {:induction false} OutTradesOk(fs: FeeSchedule, t: OrderView, levels: seq<ExtLevel>, user: string)
    requires PricesOk(levels) && !Exempt(user)
    ensures TradesOk(ExtSweep(t, levels).trades) && SingleAll(fs, ExtSweep(t, levels).trades, user)
    decreases |levels|
  {
    hide Crosses;
    if levels != [] {
      var amount := Min(t.Open(), levels[0].qty);
      var next := t.(filled := t.filled + amount, status := if t.filled + amount >= t.qty then Filled else PartiallyFilled);
      OutTradesOk(fs, t, levels[1..], user);
      OutTradesOk(fs, next, levels[1..], user);
      if t.Open() > 0.0 && amount > 0.0 {
        assert TradeOk(ExtTrade(t, levels[0], amount)) && Single(fs, ExtTrade(t, levels[0], amount), user);
      }
    }
  }

  /** The trades of a submission are sensible, and nobody who pays in VLX trades with himself unless
      self-trades are allowed. */
  lemma AllTradesOk(fs: FeeSchedule, b: BookView, o: OrderView, a: Answers, user: string)
    requires BookInv(b) && OrderOk(o) && Everywhere(b, PricedOnes()) && PricesOk(a.external) && !Exempt(user)
    ensures
      var trades := MatchAll(b, o, a).trades;
      TradesOk(trades) && (!b.mode.Allow? || fs.payInNative == {} ==> SingleAll(fs, trades, user))
  {
    hide Match, BookInv, ExtSweep, TradeOk, Everywhere, Crosses;
    var m := Match(b, o);
    OutTradesOk(fs, m.order, a.external, user);
    forall k | 0 <= k < |m.trades|
      ensures TradeOk(m.trades[k]) && (!b.mode.Allow? || fs.payInNative == {} ==> Single(fs, m.trades[k], user))
    {
      LocalTradeOk(b, o, k);
      TradesAreFair(b, o, k);
    }
  }

  predicate Apart(trades: seq<Trade>, user: string) {
    forall k :: 0 <= k < |trades| && trades[k].buyerId == user ==> trades[k].sellerId != user
  }

  /** Unless self-trades are allowed, nobody but an internal counterparty trades with himself. */
  lemma TradesApart(b: BookView, o: OrderView, a: Answers, user: string)
    requires BookInv(b) && OrderOk(o) && !b.mode.Allow? && !Exempt(user)
    ensures Apart(MatchAll(b, o, a).trades, user)
  {
    hide Match, BookInv, ExtSweep, Crosses;
    var m := Match(b, o);
    ExtApart(m.order, a.external, user);
    forall k | 0 <= k < |m.trades| ensures m.trades[k].buyerId != m.trades[k].sellerId { TradesAreFair(b, o, k); }
  }

  lemma {:induction false} ExtApart(t: OrderView, levels: seq<ExtLevel>, user: string)
    requires !Exempt(user)
    ensures Apart(ExtSweep(t, levels).trades, user)
    decreases |levels|
  {
    hide Crosses;
    if levels != [] {
      var amount := Min(t.Open(), levels[0].qty);
      ExtApart(t, levels[1..], user);
      ExtApart(t.(filled := t.filled + amount, status := if t.filled + amount >= t.qty then Filled else PartiallyFilled), levels[1..], user);
    }
  }

  // ---------------------------------------------------------------------------
  // Submissions
  // ---------------------------------------------------------------------------

  lemma HoldAt(f: Funds, who: string, kind: string, amount: real, user: string, asset: string)
    ensures
      var after := f.Hold(who, kind, amount);
      after.Balance(user, asset) == f.Balance(user, asset) &&
      after.Held(user, asset) == f.Held(user, asset) + If(user == who && asset == kind, amount)
  {}

  lemma RequiredOk(fs: FeeSchedule, m: Market, leverages: Sheet, o: OmsOrder)
    requires SpotMarket(m) && ScheduleOk(fs) && o.price >= 0.0 && o.qty >= 0.0
    ensures
      var (kind, amount) := Required(fs, m, leverages, o);
      amount >= 0.0 && kind == if o.side.Buy? then m.quote else m.base
  {
    hide LastTier, ScheduleOk, RatesOk, CostOf;
    RatesOfOk(fs, o.user);
    RatesSane(fs.RatesOf(o.user));
    CostGrows(o.qty, o.price, o.price, FeeRate(fs, o));
  }

  /** What a submission puts on hold. */
  function Reservation(fs: FeeSchedule, m: Market, d: Desk, o: OmsOrder, user: string, asset: string): real {
    var (kind, amount) := Required(fs, m, d.leverages, o);
    If(o.user != LIQUIDATOR && user == o.user && asset == kind, amount)
  }

  lemma ReserveAt(fs: FeeSchedule, m: Market, d: Desk, o: OmsOrder, user: string, asset: string)
    ensures
      var f := Reserve(fs, m, d, o);
      f.Held(user, asset) == d.funds.Held(user, asset) + Reservation(fs, m, d, o, user, asset) &&
      f.Balance(user, asset) == d.funds.Balance(user, asset)
  {
    hide Required, At, Put;
    var (kind, amount) := Required(fs, m, d.leverages, o);
    HoldAt(d.funds, o.user, kind, amount, user, asset);
  }

  lemma ReserveSane(fs: FeeSchedule, m: Market, d: Desk, o: OmsOrder, user: string)
    requires SpotMarket(m) && ScheduleOk(fs) && o.price >= 0.0 && o.qty >= 0.0 && Sane(d.funds, user)
    requires o.user == LIQUIDATOR || CanReserve(fs, m, d, o)
    ensures Sane(Reserve(fs, m, d, o), user)
    ensures VlxFree(m, d.funds, user) ==> VlxFree(m, Reserve(fs, m, d, o), user)
  {
    hide Required, At, Reserve, Funds.Held, Funds.Balance, ScheduleOk;
    RequiredOk(fs, m, d.leverages, o);
    var f := Reserve(fs, m, d, o);
    forall asset ensures 0.0 <= f.Held(user, asset) <= f.Balance(user, asset) {
      assert 0.0 <= d.funds.Held(user, asset) <= d.funds.Balance(user, asset);
      ReserveAt(fs, m, d, o, user, asset);
    }
    ReserveAt(fs, m, d, o, user, NATIVE);
  }

  lemma ClearParts(fs: FeeSchedule, m: Market, d: Desk, o: OmsOrder, a: Answers)
    requires o.id in d.orders
    ensures
      var all := MatchAll(d.book, LegacyOf(o), a);
      var after := Clear(fs, m, d, o, a);
      after.book == all.book && after.funds == SettleAll(fs, m, d.funds, all.trades)
    ensures RecordsPriced(d.orders) ==> RecordsPriced(Clear(fs, m, d, o, a).orders)
  {
    hide Match, MatchAll, Settle, SyncMakers, SyncTaker, SurplusAll, RecordsPriced;
    var all := MatchAll(d.book, LegacyOf(o), a);
    if RecordsPriced(d.orders) {
      TakerPriced(d.orders, o.id, all.order);
      MakersPriced(SyncTaker(d.orders, o.id, all.order), o.side, Match(d.book, LegacyOf(o)).trades);
    }
  }

  lemma TakerPriced(orders: Register, id: string, o: OrderView)
    requires RecordsPriced(orders) && id in orders
    ensures RecordsPriced(SyncTaker(orders, id, o))
  {}

  lemma {:induction false} MakersPriced(orders: Register, side: Side, trades: seq<Trade>)
    requires RecordsPriced(orders)
    ensures RecordsPriced(SyncMakers(orders, side, trades))
    decreases |trades|
  {
    if trades != [] { MakersPriced(SyncMaker(orders, side, trades[0]), side, trades[1..]); }
  }

  lemma ModeKept(b: BookView, o: OrderView, a: Answers)
    ensures MatchAll(b, o, a).book.mode == b.mode
  {
    hide SweepLevels, Insert, Ripple, ExtSweep, Refused, TradesOf, HasLevel, Has;
  }

  lemma ClearFunded(fs: FeeSchedule, m: Market, d: Desk, o: OmsOrder, a: Answers)
    requires SpotMarket(m) && ScheduleOk(fs) && FundsOk(fs, m, d) && o.id in d.orders && OrderOk(LegacyOf(o))
    requires o.price >= 0.0 && PricesOk(a.external)
    ensures FundsOk(fs, m, Clear(fs, m, d, o, a))
    ensures MayAllow(fs, m, d.funds) ==> MayAllow(fs, m, Clear(fs, m, d, o, a).funds)
  {
    hide Clear, MatchAll, SettleAll, SoundBook, Everywhere, ScheduleOk, Sane, TradesOk, SingleAll, VlxFree, BookInv, RecordsPriced;
    var t := LegacyOf(o);
    ClearParts(fs, m, d, o, a);
    MatchAllSound(d.book, t, a);
    PricedIsCarried();
    MatchAllCarries(d.book, t, a, PricedOnes());
    ModeKept(d.book, t, a);
    BookIsSound(d.book);
    forall user | !Exempt(user)
      ensures Sane(Clear(fs, m, d, o, a).funds, user)
      ensures VlxFree(m, d.funds, user) ==> VlxFree(m, Clear(fs, m, d, o, a).funds, user)
    {
      AllTradesOk(fs, d.book, t, a, user);
      SettleAllSane(fs, m, d.funds, MatchAll(d.book, t, a).trades, user);
    }
  }

  lemma BookIsSound(b: BookView)
    requires SoundBook(b)
    ensures BookInv(b)
  {}

  lemma PlaceFunded(fs: FeeSchedule, m: Market, d: Desk, o: OmsOrder, a: Answers)
    requires SpotMarket(m) && ScheduleOk(fs) && FundsOk(fs, m, d) && Sensible(fs, m, d, Place(o, a))
    ensures FundsOk(fs, m, Process(fs, m, d, o, a))
    ensures MayAllow(fs, m, d.funds) ==> MayAllow(fs, m, Process(fs, m, d, o, a).funds)
  {
    hide Clear, Reserve, CanReserve, SoundBook, Everywhere, ScheduleOk, Sane, VlxFree;
    if Accepts(fs, m, d, o, a) {
      var d1 := Admit(d, o, Queued).(funds := Reserve(fs, m, d, o));
      forall user | !Exempt(user)
        ensures Sane(d1.funds, user) && (VlxFree(m, d.funds, user) ==> VlxFree(m, d1.funds, user))
      {
        ReserveSane(fs, m, d, o, user);
      }
      if IsStop(o.otype) {
        StopSound(d.book, LegacyOf(o).(price := TriggerPrice(o)));
        StopPriced(d.book, LegacyOf(o).(price := TriggerPrice(o)));
      } else {
        ClearFunded(fs, m, d1, o, a);
      }
    }
  }

  lemma StopPriced(b: BookView, o: OrderView)
    requires Everywhere(b, PricedOnes()) && Priced(o)
    ensures Everywhere(AddStop(b, o), PricedOnes())
  {}

  // ---------------------------------------------------------------------------
  // Cancels
  // ---------------------------------------------------------------------------

  /** The asset a cancel request names, whatever the market. */
  function NamedAsset(o: OmsOrder): string { if o.side.Buy? then "USDT" else "BTC" }

  function OpenCost(fs: FeeSchedule, o: OmsOrder): real {
    if o.qty - o.filled <= 0.0 then 0.0
    else if o.side.Buy? then CostOf(o.qty - o.filled, o.price, FeeRate(fs, o))
    else o.qty - o.filled
  }

  lemma CostNonNegative(fs: FeeSchedule, o: OmsOrder)
    requires ScheduleOk(fs) && o.price >= 0.0
    ensures OpenCost(fs, o) >= 0.0
  {
    hide LastTier, ScheduleOk, RatesOk, CostOf;
    RatesOfOk(fs, o.user);
    RatesSane(fs.RatesOf(o.user));
    if o.qty - o.filled > 0.0 { CostGrows(o.qty - o.filled, o.price, o.price, FeeRate(fs, o)); }
  }

  /** Releasing the open part of a record takes it out of the hold of the asset the request names. */
  lemma ReleaseOpenAt(fs: FeeSchedule, f: Funds, o: OmsOrder, user: string, asset: string)
    requires ScheduleOk(fs) && o.price >= 0.0 && f.Held(user, asset) >= 0.0
    ensures
      var after := ReleaseOpen(fs, f, o);
      after.Balance(user, asset) == f.Balance(user, asset) &&
      after.Held(user, asset) ==
        if user == o.user && asset == NamedAsset(o) then Floor(f.Held(user, asset) - OpenCost(fs, o)) else f.Held(user, asset)
  {
    hide LastTier, ScheduleOk, CostOf, At, Put, Funds.Held, Funds.Balance, Funds.Release;
    CostNonNegative(fs, o);
    if o.qty - o.filled > 0.0 { ReleaseAt(f, o.user, NamedAsset(o), OpenCost(fs, o), user, asset); }
  }

  lemma NativeIsOther()
    ensures NATIVE != "USDT" && NATIVE != "BTC"
  {
    assert NATIVE[0] == 'V';
  }

  lemma WithdrawFunded(fs: FeeSchedule, m: Market, d: Desk, id: string, unstored: bool)
    requires SpotMarket(m) && ScheduleOk(fs) && FundsOk(fs, m, d)
    ensures FundsOk(fs, m, Withdraw(fs, d, id, unstored))
    ensures MayAllow(fs, m, d.funds) ==> MayAllow(fs, m, Withdraw(fs, d, id, unstored).funds)
  {
    hide Cancel, SoundBook, Everywhere, ScheduleOk, ReleaseOpen, At, Funds.Held, Funds.Balance;
    var after := Withdraw(fs, d, id, unstored);
    CancelSound(d.book, id);
    CancelCarries(d.book, id, PricedOnes());
    CancelMode(d.book, id);
    NativeIsOther();
    if id in d.orders {
      forall user | !Exempt(user)
        ensures Sane(after.funds, user)
        ensures VlxFree(m, d.funds, user) ==> VlxFree(m, after.funds, user)
      {
        assert 0.0 <= d.funds.Held(user, NATIVE);
        ReleaseOpenAt(fs, d.funds, d.orders[id], user, NATIVE);
        forall asset ensures 0.0 <= after.funds.Held(user, asset) <= after.funds.Balance(user, asset) {
          assert 0.0 <= d.funds.Held(user, asset) <= d.funds.Balance(user, asset);
          ReleaseOpenAt(fs, d.funds, d.orders[id], user, asset);
          CostNonNegative(fs, d.orders[id]);
        }
      }
    }
  }

  lemma CancelMode(b: BookView, id: string)
    ensures Book.Cancel(b, id).0.mode == b.mode
  {}

  // ---------------------------------------------------------------------------
  // Runs
  // ---------------------------------------------------------------------------

  lemma DepositFunded(fs: FeeSchedule, m: Market, d: Desk, user: string, asset: string, amount: real)
    requires FundsOk(fs, m, d) && amount >= 0.0
    ensures FundsOk(fs, m, d.(funds := d.funds.Deposit(user, asset, amount)))
    ensures MayAllow(fs, m, d.funds) ==> MayAllow(fs, m, d.funds.Deposit(user, asset, amount))
  {
    hide SoundBook, Everywhere, At, RecordsPriced;
    var f := d.funds.Deposit(user, asset, amount);
    forall u | !Exempt(u) ensures Sane(f, u) && (VlxFree(m, d.funds, u) ==> VlxFree(m, f, u)) {
      forall x ensures 0.0 <= f.Held(u, x) <= f.Balance(u, x) {
        assert 0.0 <= d.funds.Held(u, x) <= d.funds.Balance(u, x);
        DepositAt(d.funds, user, asset, amount, u, x);
      }
      DepositAt(d.funds, user, asset, amount, u, NATIVE);
    }
  }

  lemma DepositAt(f: Funds, who: string, kind: string, amount: real, user: string, asset: string)
    ensures
      var after := f.Deposit(who, kind, amount);
      after.Held(user, asset) == f.Held(user, asset) &&
      after.Balance(user, asset) == f.Balance(user, asset) + If(user == who && asset == kind, amount)
  {}

  lemma LaunchFunded(fs: FeeSchedule, m: Market, d: Desk, i: nat)
    requires FundsOk(fs, m, d) && i < |d.book.watch.pending|
    ensures
      var b := Match(Launch(d.book, i), d.book.watch.pending[i]).book;
      SoundBook(b) && Everywhere(b, PricedOnes()) && b.mode == d.book.mode
  {
    hide Match;
    LaunchSound(d.book, i);
    PricedIsCarried();
    assert OrderOk(d.book.watch.pending[i]) && Priced(d.book.watch.pending[i]);
    MatchCarries(Launch(d.book, i), d.book.watch.pending[i], PricedOnes());
    MatchMode(Launch(d.book, i), d.book.watch.pending[i]);
  }

  lemma MatchMode(b: BookView, o: OrderView)
    ensures Match(b, o).book.mode == b.mode
  {
    hide SweepLevels, Insert, Ripple, Refused, TradesOf;
  }

  lemma ModeFunded(fs: FeeSchedule, m: Market, d: Desk, mode: STPMode)
    requires FundsOk(fs, m, d) && (mode.Allow? ==> MayAllow(fs, m, d.funds))
    ensures FundsOk(fs, m, d.(book := d.book.(mode := mode)))
  {
    hide Sane, VlxFree, MayAllow, RecordsPriced, Flat;
    ModeSound(d.book, mode);
  }

  lemma ServeFunded(fs: FeeSchedule, m: Market, d: Desk, r: Request)
    requires SpotMarket(m) && ScheduleOk(fs) && FundsOk(fs, m, d) && Sensible(fs, m, d, r)
    ensures FundsOk(fs, m, Serve(fs, m, d, r))
    ensures MayAllow(fs, m, d.funds) ==> MayAllow(fs, m, Serve(fs, m, d, r).funds)
  {
    hide Process, Withdraw, SoundBook, Everywhere, ScheduleOk, Sane, VlxFree, MayAllow, RecordsPriced, Match;
    match r
    case Place(o, a) => PlaceFunded(fs, m, d, o, a);
    case Withdrawal(id, unstored) => WithdrawFunded(fs, m, d, id, unstored);
    case DepositFunds(user, asset, amount) => DepositFunded(fs, m, d, user, asset, amount);
    case StopRuns(i) => if i < |d.book.watch.pending| { LaunchFunded(fs, m, d, i); }
    case UseMode(mode) => ModeFunded(fs, m, d, mode);
  }

  ghost predicate AllSensible(fs: FeeSchedule, m: Market, d: Desk, rs: seq<Request>)
    decreases |rs|
  {
    rs == [] || (Sensible(fs, m, d, rs[0]) && AllSensible(fs, m, Serve(fs, m, d, rs[0]), rs[1..]))
  }

  /** Through every run, whatever is submitted (stop orders, market orders, post-only orders), whoever
      runs short, and whatever a cancel releases by the wrong name: no user's hold of an asset exceeds
      the balance. */
  lemma {:induction false} HoldsWithinBalances(fs: FeeSchedule, m: Market, d: Desk, rs: seq<Request>)
    requires SpotMarket(m) && ScheduleOk(fs) && FundsOk(fs, m, d) && AllSensible(fs, m, d, rs)
    ensures FundsOk(fs, m, ServeAll(fs, m, d, rs))
    ensures MayAllow(fs, m, d.funds) ==> MayAllow(fs, m, ServeAll(fs, m, d, rs).funds)
    decreases |rs|
  {
    hide SpotMarket, ScheduleOk, FundsOk, Sensible, MayAllow, Serve;
    if rs != [] {
      ServeFunded(fs, m, d, rs[0]);
      HoldsWithinBalances(fs, m, Serve(fs, m, d, rs[0]), rs[1..]);
    }
  }

  /** Trading starts with deposits only; nobody has VLX on hold, so self-trades may be allowed. */
  lemma EmptyIsFunded(fs: FeeSchedule, m: Market, balances: Sheet)
    requires forall user, asset :: At(balances, user, asset) >= 0.0
    ensures
      var d := Desk(BookView(CancelNewest, [], [], Watch([], [], 0.0, 0)), Funds(balances, map[]), map[], 0.0, map[]);
      FundsOk(fs, m, d) && (m.base != NATIVE && m.quote != NATIVE ==> MayAllow(fs, m, d.funds))
  {}

  // ---------------------------------------------------------------------------
  // What is reserved
  // ---------------------------------------------------------------------------

  /** A spot buy reserves the value of the order and the fee at the maker rate when it is post-only and at the
      taker rate when not; a spot sell reserves its quantity; nothing else is reserved. */
  lemma SpotReservation(fs: FeeSchedule, m: Market, d: Desk, o: OmsOrder, asset: string)
    requires !m.futures && o.user != LIQUIDATOR
    ensures Reservation(fs, m, d, o, o.user, asset) ==
      if o.side.Buy? then
        if asset == m.quote then
          o.qty * o.price + o.qty * o.price * (if o.postOnly then fs.RatesOf(o.user).maker else fs.RatesOf(o.user).taker)
        else 0.0
      else if asset == m.base then o.qty else 0.0
    ensures forall other :: other != o.user ==> Reservation(fs, m, d, o, other, asset) == 0.0
  {
    hide LastTier;
    var rate := if o.postOnly then fs.RatesOf(o.user).maker else fs.RatesOf(o.user).taker;
    assert o.qty * o.price * (1.0 + rate) == o.qty * o.price + o.qty * o.price * rate;
  }

  /** A futures order reserves its value over the user's leverage, which is twenty unless the user has set a
      positive one for the market. */
  lemma FuturesReservation(fs: FeeSchedule, m: Market, d: Desk, o: OmsOrder)
    requires m.futures && o.user != LIQUIDATOR
    ensures
      var leverage :=
        if o.user in d.leverages && m.symbol in d.leverages[o.user] && d.leverages[o.user][m.symbol] > 0.0
        then d.leverages[o.user][m.symbol] else 20.0;
      Reservation(fs, m, d, o, o.user, m.quote) * leverage == o.qty * o.price
    ensures forall asset :: asset != m.quote ==> Reservation(fs, m, d, o, o.user, asset) == 0.0
  {}

  /** A submission is accepted exactly when it gets into the database and passes the screens, and what it
      reserves is free; the liquidation engine is asked for neither screens nor funds. */
  lemma AcceptsIff(fs: FeeSchedule, m: Market, d: Desk, o: OmsOrder, a: Answers)
    ensures
      var asset := if !m.futures && o.side.Sell? then m.base else m.quote;
      var free := d.funds.Balance(o.user, asset) - d.funds.Held(o.user, asset);
      Accepts(fs, m, d, o, a) <==>
      a.entry.Entered? && a.rulesOk && (o.user == LIQUIDATOR || (a.admitted && free >= Reservation(fs, m, d, o, o.user, asset)))
  {
    hide CostOf, MarginOf, LastTier;
  }

  /** What a cancel request answers tells what it did: nothing, when the order is not known or neither armed nor
      resting; taken off the book alone, when its stage may not move; moved as well, but with its hold kept,
      when the move was not stored; and otherwise all three. */
  lemma AnswerTells(fs: FeeSchedule, d: Desk, id: string, unstored: bool)
    ensures
      var after, answer := Withdraw(fs, d, id, unstored), Answered(d, id, unstored);
      var found := Has(d.book.watch.stops, id) || Has(d.book.Queue(Buy), id) || Has(d.book.Queue(Sell), id);
      (answer == UnknownOrder <==> id !in d.orders) && (answer == NotOnBook <==> id in d.orders && !found) &&
      (answer == NotMoved <==> id in d.orders && found && (unstored || Final(d.orders[id].stage) || d.orders[id].stage == Created) && !(!unstored && d.orders[id].stage == Withdrawn)) &&
      (!(id in d.orders && found) ==> after == d) &&
      (answer in {NotMoved, Freed} ==> after.book == Book.Cancel(d.book, id).0) &&
      (answer != Freed ==> after.funds == d.funds) &&
      (answer == Freed ==> after.orders == d.orders[id := d.orders[id].(stage := Withdrawn)] && after.funds == ReleaseOpen(fs, d.funds, d.orders[id])) &&
      after.fund == d.fund && after.leverages == d.leverages
  {
    FlatWithout(d.book.bids, id);
    FlatWithout(d.book.asks, id);
    hide Has, HasLevel, Without, WithoutLevel, Flat, ReleaseOpen;
  }

  /** Where a submission that is not accepted leaves the order, having touched nothing else. */
  lemma RefusalStage(fs: FeeSchedule, m: Market, d: Desk, o: OmsOrder, a: Answers)
    requires !Accepts(fs, m, d, o, a)
    ensures
      var stage := if a.entry == Unsaved then Created else if a.entry == Unmoved then PendingValidation else Declined;
      Process(fs, m, d, o, a) == d.(orders := d.orders[o.id := o.(stage := stage)])
  {}
}
