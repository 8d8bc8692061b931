/** Ways in which a request leaves an open order without its hold.  A post-only buy is reserved at the
    maker rate, but a fill releases at the taker rate.  A market buy is reserved at the price it names, if
    any, but a fill releases at the price it meets.  A cancel names USDT or BTC, whatever the market. */
module Shortfall {
  import opened Book
  import opened BookQueues
  import opened Accounts
  import opened Execution
  import opened OmsState
  import opened Desk
  import opened DeskRuns
  import opened OmsAgreement
  import opened Claims
  import opened Payments
  import opened Funding
  import opened Solvency

  const NO_ORDERS := BookView(CancelNewest, [], [], Watch([], [], 0.0, 0))

  const START := Told(Desk(NO_ORDERS, Funds(map[], map[]), map[], 0.0, map[]), [], map[])

  const CALM := Answers(Entered, true, true, [])

  // ---------------------------------------------------------------------------
  // The orders and the books
  // ---------------------------------------------------------------------------

  function OrderOf(id: string, user: string, side: Side, price: real, postOnly: bool): OmsOrder {
    OmsOrder(id, user, side, Limit, price, 0.0, 1.0, 0.0, GTC, postOnly, Created)
  }

  /** The order to be left short, a post-only order, an offer, and a market order that names no price. */
  function Patient(u: string): OmsOrder { OrderOf("a", u, Buy, 10.0, false) }

  function Maker(u: string): OmsOrder { OrderOf("b", u, Buy, 20.0, true) }

  function Seller(v: string): OmsOrder { OrderOf("c", v, Sell, 20.0, false) }

  function Hasty(u: string): OmsOrder { OmsOrder("d", u, Buy, OrderType.Market, 0.0, 0.0, 1.0, 0.0, GTC, false, Created) }

  function Other(u: string): (v: string)
    ensures v != u && !Exempt(v)
  {
    if u == "bob" then "ann" else "bob"
  }

  function OneBid(u: string): BookView {
    NO_ORDERS.(bids := [Level(10.0, [LegacyOf(Patient(u))])], watch := Watch([], [], 0.0, 1))
  }

  function TwoBids(u: string): BookView {
    NO_ORDERS.(bids := [Level(20.0, [LegacyOf(Maker(u))]), Level(10.0, [LegacyOf(Patient(u))])], watch := Watch([], [], 0.0, 2))
  }

  function BidAndAsk(u: string, v: string): BookView {
    OneBid(u).(asks := [Level(20.0, [LegacyOf(Seller(v))])], watch := Watch([], [], 0.0, 2))
  }

  function OneAsk(v: string): BookView {
    NO_ORDERS.(asks := [Level(20.0, [LegacyOf(Seller(v))])], watch := Watch([], [], 0.0, 1))
  }

  function Sale(number: nat, u: string, id: string): Trade { Trade(number, u, Other(u), id, "c", 20.0, 1.0) }

  lemma PatientRests(u: string)
    ensures
      var x := MatchAll(NO_ORDERS, LegacyOf(Patient(u)), CALM);
      x.book == OneBid(u) && x.trades == []
  {}

  lemma MakerRests(u: string)
    ensures
      var x := MatchAll(OneBid(u), LegacyOf(Maker(u)), CALM);
      x.book == TwoBids(u) && x.trades == []
  {}

  lemma SellerRests(u: string, v: string)
    ensures
      var x := MatchAll(OneBid(u), LegacyOf(Seller(v)), CALM);
      x.book == BidAndAsk(u, v) && x.trades == []
  {}

  lemma OfferRests(v: string)
    ensures
      var x := MatchAll(NO_ORDERS, LegacyOf(Seller(v)), CALM);
      x.book == OneAsk(v) && x.trades == []
  {}

  /** An order that meets exactly its quantity. */
  lemma ExactFill(mode: STPMode, t: OrderView, r: OrderView)
    requires t.user != r.user && Crosses(t, r.price) && t.Open() == r.Open() > 0.0
    ensures
      var n := t.Open();
      Sweep(mode, t, [r]) == Outcome(t.Take(n), [FillOf(r, n)], [r.Take(n)], [], false)
  {
    var n := t.Open();
    assert [r][1..] == [];
    assert Sweep(mode, t.Take(n), []) == Outcome(t.Take(n), [], [], [], false);
    assert [FillOf(r, n)] + [] == [FillOf(r, n)] && [r.Take(n)] + [] == [r.Take(n)];
    assert Min(n, r.Open()) == n && r.Take(n).filled == r.Take(n).qty;
  }

  lemma ExactLevel(mode: STPMode, t: OrderView, r: OrderView, rest: seq<Level>)
    requires t.user != r.user && Crosses(t, r.price) && t.Open() == r.Open() > 0.0
    ensures
      var n := t.Open();
      SweepLevels(mode, t, [Level(r.price, [r])] + rest) == LevelOutcome(t.Take(n), [FillOf(r, n)], [r.Take(n)], rest, false)
  {
    hide Sweep, Crosses;
    var n, levels := t.Open(), [Level(r.price, [r])] + rest;
    ExactFill(mode, t, r);
    assert levels[0] == Level(r.price, [r]) && levels[1..] == rest;
    assert SweepLevels(mode, t.Take(n), rest) == LevelOutcome(t.Take(n), [], [], rest, false);
    assert [FillOf(r, n)] + [] == [FillOf(r, n)] && [r.Take(n)] + [] == [r.Take(n)];
  }

  lemma FlatOne(l: Level)
    ensures Flat([l]) == l.orders
  {
    assert [l][1..] == [] && Flat([l][1..]) == [] && l.orders + [] == l.orders;
  }

  lemma OneFill(t: OrderView, f: Fill, n: nat)
    ensures TradesOf(t, [f], n) == [TradeOf(t, f, n + 1)]
  {
    assert [f][1..] == [] && [TradeOf(t, f, n + 1)] + [] == [TradeOf(t, f, n + 1)];
  }

  lemma SellerFills(u: string)
    ensures
      var x := MatchAll(TwoBids(u), LegacyOf(Seller(Other(u))), CALM);
      x.book.Queue(Buy) == [LegacyOf(Patient(u))] && x.book.Queue(Sell) == [] && x.trades == [Sale(3, u, "b")]
  {
    hide SweepLevels, Ripple, TradesOf;
    var t, b := LegacyOf(Seller(Other(u))), TwoBids(u);
    var f, low := FillOf(LegacyOf(Maker(u)), 1.0), Level(10.0, [LegacyOf(Patient(u))]);
    ExactLevel(b.mode, t, LegacyOf(Maker(u)), [low]);
    assert b.bids == [Level(20.0, [LegacyOf(Maker(u))])] + [low];
    OneFill(t, f, 2);
    FlatOne(low);
    assert MatchAll(b, t, CALM).book.bids == [low];
  }

  lemma HastyFills(u: string, b: BookView, low: seq<Level>, n: nat)
    requires b == NO_ORDERS.(bids := low, asks := OneAsk(Other(u)).asks, watch := Watch([], [], 0.0, n))
    ensures
      var x := MatchAll(b, LegacyOf(Hasty(u)), CALM);
      x.book.Queue(Buy) == Flat(low) && x.book.Queue(Sell) == [] && x.trades == [Sale(n + 1, u, "d")]
  {
    hide SweepLevels, Ripple, TradesOf;
    var t, r := LegacyOf(Hasty(u)), LegacyOf(Seller(Other(u)));
    ExactLevel(b.mode, t, r, []);
    assert b.asks == [Level(20.0, [r])] + [];
    OneFill(t, FillOf(r, 1.0), n);
    assert MatchAll(b, t, CALM).book.bids == low && MatchAll(b, t, CALM).book.asks == [];
  }

  // ---------------------------------------------------------------------------
  // The runs, request by request
  // ---------------------------------------------------------------------------

  function Means(fs: FeeSchedule, u: string): real {
    CostOf(1.0, 10.0, fs.RatesOf(u).taker) + CostOf(1.0, 20.0, fs.RatesOf(u).maker)
  }

  /** Where a run stands: the buyer has his means in the quote asset, the seller one of the base asset. */
  predicate Stands(fs: FeeSchedule, m: Market, u: string, v: string, d: Desk, book: BookView, orders: Register, held: real, sold: real) {
    d.book == book && d.orders == orders && d.leverages == map[] &&
    d.funds.Balance(u, m.quote) == Means(fs, u) && d.funds.Held(u, m.quote) == held &&
    d.funds.Balance(v, m.base) == 1.0 && d.funds.Held(v, m.base) == sold
  }

  lemma Deposited(fs: FeeSchedule, m: Market, u: string, v: string)
    requires SpotMarket(m)
    ensures
      var s := Tell(fs, m, Tell(fs, m, START, DepositFunds(u, m.quote, Means(fs, u))), DepositFunds(v, m.base, 1.0));
      Stands(fs, m, u, v, s.desk, NO_ORDERS, map[], 0.0, 0.0)
  {
    hide CostOf, LastTier;
  }

  /** A limit order that can be held for and meets nothing rests. */
  lemma Rests(fs: FeeSchedule, m: Market, u: string, v: string, s: Told, o: OmsOrder, book: BookView, orders: Register,
              held: real, sold: real, after: BookView)
    requires SpotMarket(m) && !Exempt(u) && !Exempt(v) && Stands(fs, m, u, v, s.desk, book, orders, held, sold) && o.otype.Limit?
    requires if o.side.Buy? then o.user == u && held + CostOf(o.qty, o.price, FeeRate(fs, o)) <= Means(fs, u)
             else o.user == v && o.qty == 1.0 && sold == 0.0
    requires MatchAll(book, LegacyOf(o), CALM).book == after && MatchAll(book, LegacyOf(o), CALM).trades == []
    ensures
      Stands(fs, m, u, v, Tell(fs, m, s, Place(o, CALM)).desk, after, orders[o.id := o.(stage := Queued)],
             held + If(o.side.Buy?, CostOf(o.qty, o.price, FeeRate(fs, o))), sold + If(o.side.Sell?, 1.0))
  {
    hide MatchAll, CostOf, FeeRate, Put, At, Match;
    ReserveAt(fs, m, s.desk, o, u, m.quote);
    ReserveAt(fs, m, s.desk, o, v, m.base);
  }

  /** The run unrolled. */
  lemma Unrolled(fs: FeeSchedule, m: Market, rs: seq<Request>)
    requires |rs| == 5
    ensures
      var s1 := Tell(fs, m, START, rs[0]);
      var s2 := Tell(fs, m, s1, rs[1]);
      var s3 := Tell(fs, m, s2, rs[2]);
      var s4 := Tell(fs, m, s3, rs[3]);
      TellAll(fs, m, START, rs) == Tell(fs, m, s4, rs[4]) &&
      (AllOffered(fs, m, START, rs) <==>
        Offered(fs, m, START.desk, rs[0]) && Offered(fs, m, s1.desk, rs[1]) && Offered(fs, m, s2.desk, rs[2]) &&
        Offered(fs, m, s3.desk, rs[3]) && Offered(fs, m, s4.desk, rs[4]))
  {
    hide Tell, Offered, TellAll, AllOffered;
    var s1 := Tell(fs, m, START, rs[0]);
    var s2 := Tell(fs, m, s1, rs[1]);
    var s3 := Tell(fs, m, s2, rs[2]);
    var s4 := Tell(fs, m, s3, rs[3]);
    OneMore(fs, m, START, rs);
    OneMore(fs, m, s1, rs[1..]);
    OneMore(fs, m, s2, rs[1..][1..]);
    OneMore(fs, m, s3, rs[1..][1..][1..]);
    OneMore(fs, m, s4, rs[1..][1..][1..][1..]);
    assert rs[1..][1..][1..][1..][1..] == [];
    NoMore(fs, m, Tell(fs, m, s4, rs[4]));
  }

  lemma OneMore(fs: FeeSchedule, m: Market, s: Told, rs: seq<Request>)
    requires rs != []
    ensures TellAll(fs, m, s, rs) == TellAll(fs, m, Tell(fs, m, s, rs[0]), rs[1..])
    ensures AllOffered(fs, m, s, rs) <==> Offered(fs, m, s.desk, rs[0]) && AllOffered(fs, m, Tell(fs, m, s, rs[0]), rs[1..])
  {
    hide Offered, Tell;
  }

  lemma NoMore(fs: FeeSchedule, m: Market, s: Told)
    ensures TellAll(fs, m, s, []) == s && AllOffered(fs, m, s, [])
  {
    hide Offered;
  }

  lemma Fresh(fs: FeeSchedule, m: Market, d: Desk, o: OmsOrder)
    requires o.id !in d.orders && |o.id| == 1 && !IsStop(o.otype) && o.price >= 0.0 && o.filled == 0.0 && o.qty == 1.0
    ensures Offered(fs, m, d, Place(o, CALM))
  {}

  lemma Deposits(fs: FeeSchedule, m: Market, d: Desk, user: string, asset: string, amount: real)
    requires amount >= 0.0
    ensures Offered(fs, m, d, DepositFunds(user, asset, amount))
  {}

  /** A run of five requests from an empty desk, the last of them to be looked at. */
  lemma BeforeLast(fs: FeeSchedule, m: Market, rs: seq<Request>) returns (s: Told)
    requires SpotMarket(m) && ScheduleOk(fs) && |rs| == 5 && AllOffered(fs, m, START, rs)
    ensures
      var s2 := Tell(fs, m, Tell(fs, m, START, rs[0]), rs[1]);
      s == Tell(fs, m, Tell(fs, m, s2, rs[2]), rs[3])
    ensures Funded(fs, m, s) && Offered(fs, m, s.desk, rs[4]) && TellAll(fs, m, START, rs) == Tell(fs, m, s, rs[4])
  {
    hide Tell, Offered, TellAll, AllOffered, Funded, SpotMarket, ScheduleOk;
    Unrolled(fs, m, rs);
    var s1 := Tell(fs, m, START, rs[0]);
    var s2 := Tell(fs, m, s1, rs[1]);
    var s3 := Tell(fs, m, s2, rs[2]);
    s := Tell(fs, m, s3, rs[3]);
    StartFunded(fs, m);
    TellFunded(fs, m, START, rs[0]);
    TellFunded(fs, m, s1, rs[1]);
    TellFunded(fs, m, s2, rs[2]);
    TellFunded(fs, m, s3, rs[3]);
  }

  lemma StartFunded(fs: FeeSchedule, m: Market)
    ensures Solvent(fs, m, START) && Funded(fs, m, START)
  {
    EmptyIsSolvent(fs, m, map[]);
  }

  lemma OneClaim(fs: FeeSchedule, m: Market, u: string, b: BookView)
    requires b.Queue(Buy) == [LegacyOf(Patient(u))] && b.Queue(Sell) == []
    ensures Claim(fs, m, b, u, m.quote) == CostOf(1.0, 10.0, fs.RatesOf(u).taker)
  {
    hide Flat, LastTier, CostOf;
    assert [LegacyOf(Patient(u))][1..] == [];
    assert LegacyOf(Patient(u)).Open() == 1.0;
  }

  lemma SaleOwed(fs: FeeSchedule, m: Market, n: nat, u: string, id: string)
    requires SpotMarket(m)
    ensures OwedAll(fs, m, [Sale(n, u, id)], u, m.quote) == 20.0 + RawFee(20.0, fs.RatesOf(u).taker)
  {
    hide RawFee, LastTier;
    assert [Sale(n, u, id)][1..] == [];
  }

  lemma PositiveCost(fs: FeeSchedule, u: string)
    requires ScheduleOk(fs)
    ensures
      var first, second := CostOf(1.0, 10.0, fs.RatesOf(u).taker), CostOf(1.0, 20.0, fs.RatesOf(u).maker);
      first >= 10.0 && second >= 20.0 && 20.0 + RawFee(20.0, fs.RatesOf(u).taker) > first &&
      (!RatesFit(fs, u) ==> 20.0 + RawFee(20.0, fs.RatesOf(u).taker) > second)
  {
    hide LastTier;
    RatesOfOk(fs, u);
  }

  // ---------------------------------------------------------------------------
  // A post-only buy
  // ---------------------------------------------------------------------------

  function ShortRun(fs: FeeSchedule, m: Market, u: string): seq<Request> {
    [DepositFunds(u, m.quote, Means(fs, u)), DepositFunds(Other(u), m.base, 1.0),
     Place(Patient(u), CALM), Place(Maker(u), CALM), Place(Seller(Other(u)), CALM)]
  }

  lemma ShortStands(fs: FeeSchedule, m: Market, u: string) returns (s: Told)
    requires SpotMarket(m) && ScheduleOk(fs) && !Exempt(u)
    ensures
      var rs := ShortRun(fs, m, u);
      AllOffered(fs, m, START, rs) && Funded(fs, m, s) && Offered(fs, m, s.desk, rs[4]) &&
      TellAll(fs, m, START, rs) == Tell(fs, m, s, rs[4]) && s.desk.book == TwoBids(u) && s.desk.leverages == map[] &&
      s.desk.funds.Held(u, m.quote) == Means(fs, u) && s.desk.funds.Balance(Other(u), m.base) == 1.0 && s.desk.funds.Held(Other(u), m.base) == 0.0
  {
    hide LastTier, Tell, MatchAll, CostOf, TwoBids, OneBid, ScheduleOk, AllOffered, Offered, TellAll, Funded, RawFee;
    var rs, v := ShortRun(fs, m, u), Other(u);
    var s2 := Tell(fs, m, Tell(fs, m, START, rs[0]), rs[1]);
    var s3 := Tell(fs, m, s2, rs[2]);
    var orders: Register := map["a" := Patient(u).(stage := Queued)];
    PositiveCost(fs, u);
    Deposited(fs, m, u, v);
    PatientRests(u);
    Rests(fs, m, u, v, s2, Patient(u), NO_ORDERS, map[], 0.0, 0.0, OneBid(u));
    MakerRests(u);
    assert map[]["a" := Patient(u).(stage := Queued)] == orders;
    Rests(fs, m, u, v, s3, Maker(u), OneBid(u), orders, CostOf(1.0, 10.0, fs.RatesOf(u).taker), 0.0, TwoBids(u));
    Deposits(fs, m, START.desk, u, m.quote, Means(fs, u));
    Deposits(fs, m, Tell(fs, m, START, rs[0]).desk, v, m.base, 1.0);
    Fresh(fs, m, s2.desk, Patient(u));
    Fresh(fs, m, s3.desk, Maker(u));
    Fresh(fs, m, Tell(fs, m, s3, rs[3]).desk, Seller(v));
    Unrolled(fs, m, rs);
    s := BeforeLast(fs, m, rs);
  }

  /** Where the taker rate of a user exceeds the maker rate: deposits, a limit buy, a post-only buy, and
      a sale that fills the latter, after which the former is no longer covered by the hold. */
  lemma ShortRunFails(fs: FeeSchedule, m: Market, u: string)
    requires SpotMarket(m) && ScheduleOk(fs) && !Exempt(u) && !RatesFit(fs, u)
    ensures AllOffered(fs, m, START, ShortRun(fs, m, u))
    ensures
      var d := TellAll(fs, m, START, ShortRun(fs, m, u)).desk;
      d.book.Queue(Buy) == [LegacyOf(Patient(u))] && d.funds.Held(u, m.quote) < Claim(fs, m, d.book, u, m.quote)
  {
    hide LastTier, MatchAll, CostOf, TwoBids, Claim, RawFee, ScheduleOk, Funded, Offered, TellAll, AllOffered, Process, At, SettleAll,
      Reserve, TradesOk, Reported, Put;
    var s := ShortStands(fs, m, u);
    var o := Seller(Other(u));
    SellerFills(u);
    PlaceHeld(fs, m, s, o, CALM, u, m.quote);
    SaleOwed(fs, m, 3, u, "b");
    PositiveCost(fs, u);
    OneClaim(fs, m, u, MatchAll(s.desk.book, LegacyOf(o), CALM).book);
  }

  // ---------------------------------------------------------------------------
  // A bid and an offer, and what comes next
  // ---------------------------------------------------------------------------

  function Then(fs: FeeSchedule, m: Market, u: string, v: string, last: Request): seq<Request> {
    [DepositFunds(u, m.quote, Means(fs, u)), DepositFunds(v, m.base, 1.0), Place(Patient(u), CALM), Place(Seller(v), CALM), last]
  }

  function Records(u: string, v: string): Register {
    map["a" := Patient(u).(stage := Queued), "c" := Seller(v).(stage := Queued)]
  }

  lemma ThenStands(fs: FeeSchedule, m: Market, u: string, v: string, last: Request) returns (s: Told)
    requires SpotMarket(m) && ScheduleOk(fs) && !Exempt(u) && !Exempt(v)
    requires forall d: Desk :: d.orders == Records(u, v) ==> Offered(fs, m, d, last)
    ensures
      var rs := Then(fs, m, u, v, last);
      AllOffered(fs, m, START, rs) && Funded(fs, m, s) && Offered(fs, m, s.desk, last) &&
      TellAll(fs, m, START, rs) == Tell(fs, m, s, last) &&
      Stands(fs, m, u, v, s.desk, BidAndAsk(u, v), Records(u, v), CostOf(1.0, 10.0, fs.RatesOf(u).taker), 1.0)
  {
    hide LastTier, Tell, MatchAll, CostOf, BidAndAsk, OneBid, ScheduleOk, AllOffered, Offered, TellAll, Funded, RawFee;
    var rs := Then(fs, m, u, v, last);
    var s2 := Tell(fs, m, Tell(fs, m, START, rs[0]), rs[1]);
    var s3 := Tell(fs, m, s2, rs[2]);
    var orders: Register := map["a" := Patient(u).(stage := Queued)];
    PositiveCost(fs, u);
    Deposited(fs, m, u, v);
    PatientRests(u);
    Rests(fs, m, u, v, s2, Patient(u), NO_ORDERS, map[], 0.0, 0.0, OneBid(u));
    SellerRests(u, v);
    assert map[]["a" := Patient(u).(stage := Queued)] == orders;
    Rests(fs, m, u, v, s3, Seller(v), OneBid(u), orders, CostOf(1.0, 10.0, fs.RatesOf(u).taker), 0.0, BidAndAsk(u, v));
    assert orders["c" := Seller(v).(stage := Queued)] == Records(u, v);
    Deposits(fs, m, START.desk, u, m.quote, Means(fs, u));
    Deposits(fs, m, Tell(fs, m, START, rs[0]).desk, v, m.base, 1.0);
    Fresh(fs, m, s2.desk, Patient(u));
    Fresh(fs, m, s3.desk, Seller(v));
    Unrolled(fs, m, rs);
    s := BeforeLast(fs, m, rs);
  }

  /** Whatever the rates: a limit buy at 10, a sale offered at 20, and a market buy that names no price and
      takes it, after which the limit buy is no longer covered by the hold. */
  lemma HastyRunFails(fs: FeeSchedule, m: Market, u: string)
    requires SpotMarket(m) && ScheduleOk(fs) && !Exempt(u)
    ensures AllOffered(fs, m, START, Then(fs, m, u, Other(u), Place(Hasty(u), CALM)))
    ensures
      var d := TellAll(fs, m, START, Then(fs, m, u, Other(u), Place(Hasty(u), CALM))).desk;
      d.book.Queue(Buy) == [LegacyOf(Patient(u))] && d.funds.Held(u, m.quote) < Claim(fs, m, d.book, u, m.quote)
  {
    hide LastTier, MatchAll, CostOf, BidAndAsk, Claim, RawFee, ScheduleOk, Funded, Offered, TellAll, AllOffered, Process, At, SettleAll,
      Reserve, TradesOk, Reported, Put, Flat;
    var o := Hasty(u);
    forall d: Desk | d.orders == Records(u, Other(u)) ensures Offered(fs, m, d, Place(o, CALM)) { Fresh(fs, m, d, o); }
    var s := ThenStands(fs, m, u, Other(u), Place(o, CALM));
    FundedBook(fs, m, s, u, m.quote);
    NamesNothing(fs, m, s.desk, u);
    BooksMatch(u);
    HastyFills(u, s.desk.book, OneBid(u).bids, 2);
    FlatOne(OneBid(u).bids[0]);
    PlaceHeld(fs, m, s, o, CALM, u, m.quote);
    SaleOwed(fs, m, 3, u, "d");
    PositiveCost(fs, u);
    OneClaim(fs, m, u, MatchAll(s.desk.book, LegacyOf(o), CALM).book);
  }

  lemma BooksMatch(u: string)
    ensures BidAndAsk(u, Other(u)) == NO_ORDERS.(bids := OneBid(u).bids, asks := OneAsk(Other(u)).asks, watch := Watch([], [], 0.0, 2))
  {}

  /** A market buy that names no price needs nothing to be accepted, and holds nothing. */
  lemma NamesNothing(fs: FeeSchedule, m: Market, d: Desk, u: string)
    requires SpotMarket(m) && d.funds.Held(u, m.quote) <= d.funds.Balance(u, m.quote)
    ensures Accepts(fs, m, d, Hasty(u), CALM) && Reservation(fs, m, d, Hasty(u), u, m.quote) == 0.0
  {
    hide LastTier;
    assert CostOf(1.0, 0.0, FeeRate(fs, Hasty(u))) == 0.0;
  }

  /** With no means at all a user who names no price gets what is offered, for nothing. */
  lemma PennilessBuys(fs: FeeSchedule, m: Market, u: string)
    requires SpotMarket(m) && ScheduleOk(fs) && !Exempt(u)
    ensures
      var rs := [DepositFunds(Other(u), m.base, 1.0), Place(Seller(Other(u)), CALM), Place(Hasty(u), CALM)];
      var f := TellAll(fs, m, START, rs).desk.funds;
      f.Balance(u, m.base) == 1.0 && f.Balance(u, m.quote) == 0.0 && f.Held(u, m.quote) == 0.0
  {
    hide LastTier, MatchAll, CostOf, RawFee, ScheduleOk, Funded, Offered, TellAll, Put, Settle, Tell, Flat;
    var v, o := Other(u), Hasty(u);
    var rs := [DepositFunds(v, m.base, 1.0), Place(Seller(v), CALM), Place(o, CALM)];
    var s1 := Tell(fs, m, START, rs[0]);
    var s2 := Tell(fs, m, s1, rs[1]);
    Told3(fs, m, rs);
    OfferStands(fs, m, u);
    HastyFills(u, s2.desk.book, [], 1);
    NamesNothing(fs, m, s2.desk, u);
    Settled(fs, m, s2, o, Sale(2, u, "d"));
    var f := Reserve(fs, m, s2.desk, o);
    forall asset ensures f.Held(u, asset) == 0.0 && f.Balance(u, asset) == 0.0 { ReservedNothing(fs, m, s2.desk, u, asset); }
    SettleAt(fs, m, f, Sale(2, u, "d"), u, m.base);
    SettleAt(fs, m, f, Sale(2, u, "d"), u, m.quote);
    GetsForNothing(fs, m, f, u);
    OwedApart(fs, m, Sale(2, u, "d"), u, m.quote);
  }

  lemma Told3(fs: FeeSchedule, m: Market, rs: seq<Request>)
    requires |rs| == 3
    ensures TellAll(fs, m, START, rs) == Tell(fs, m, Tell(fs, m, Tell(fs, m, START, rs[0]), rs[1]), rs[2])
  {
    hide Tell, TellAll, AllOffered, Offered;
    OneMore(fs, m, START, rs);
    OneMore(fs, m, Tell(fs, m, START, rs[0]), rs[1..]);
    OneMore(fs, m, Tell(fs, m, Tell(fs, m, START, rs[0]), rs[1]), rs[1..][1..]);
    assert rs[1..][1..][1..] == [];
    NoMore(fs, m, Tell(fs, m, Tell(fs, m, Tell(fs, m, START, rs[0]), rs[1]), rs[2]));
  }

  lemma OfferStands(fs: FeeSchedule, m: Market, u: string)
    requires SpotMarket(m) && !Exempt(u)
    ensures
      var d := Tell(fs, m, Tell(fs, m, START, DepositFunds(Other(u), m.base, 1.0)), Place(Seller(Other(u)), CALM)).desk;
      d.book == OneAsk(Other(u)) && d.leverages == map[] && forall asset :: d.funds.Held(u, asset) == 0.0 && d.funds.Balance(u, asset) == 0.0
  {
    hide MatchAll, Match;
    OfferRests(Other(u));
  }

  lemma Settled(fs: FeeSchedule, m: Market, s: Told, o: OmsOrder, t: Trade)
    requires !IsStop(o.otype) && Accepts(fs, m, s.desk, o, CALM) && MatchAll(s.desk.book, LegacyOf(o), CALM).trades == [t]
    ensures Tell(fs, m, s, Place(o, CALM)).desk.funds == Settle(fs, m, Reserve(fs, m, s.desk, o), t)
  {
    hide MatchAll, Match, Required, CanReserve, Reserve, Settle;
    assert [t][1..] == [];
    assert SettleAll(fs, m, Reserve(fs, m, s.desk, o), [t]) == Settle(fs, m, Reserve(fs, m, s.desk, o), t);
  }

  lemma ReservedNothing(fs: FeeSchedule, m: Market, d: Desk, u: string, asset: string)
    requires SpotMarket(m) && d.funds.Held(u, asset) == 0.0 && d.funds.Balance(u, asset) == 0.0
    ensures
      var f := Reserve(fs, m, d, Hasty(u));
      f.Held(u, asset) == 0.0 && f.Balance(u, asset) == 0.0
  {
    hide LastTier;
    assert CostOf(1.0, 0.0, FeeRate(fs, Hasty(u))) == 0.0;
    ReserveAt(fs, m, d, Hasty(u), u, asset);
  }

  lemma GetsForNothing(fs: FeeSchedule, m: Market, f: Funds, u: string)
    requires SpotMarket(m) && ScheduleOk(fs) && forall asset :: f.Held(u, asset) == 0.0 && f.Balance(u, asset) == 0.0
    ensures
      var e := Execute(fs, m, f, Sale(2, u, "d"));
      BuyerGets(m, e, m.base) == 1.0 && BuyerGets(m, e, m.quote) <= 0.0
  {
    hide LastTier, ScheduleOk, Charge, RawFee, At;
    var t := Sale(2, u, "d");
    RawBounds(fs, t);
    ChargeCases(fs, f, u, m.feeAsset, BuyerRaw(fs, t));
    FeesKnown(fs, m, f, t);
    assert f.Available(u, NATIVE) == 0.0;
  }

  // ---------------------------------------------------------------------------
  // Cancels by the wrong name
  // ---------------------------------------------------------------------------

  lemma CancelOffered(fs: FeeSchedule, m: Market, u: string, v: string, id: string)
    ensures forall d: Desk :: d.orders == Records(u, v) ==> Offered(fs, m, d, Withdrawal(id, false))
  {}

  lemma OnlyClaim(fs: FeeSchedule, m: Market, r: OrderView, user: string, asset: string)
    ensures QueueClaim(fs, m, [r], user, asset) == OrderClaim(fs, m, r, user, asset)
  {
    assert [r][1..] == [];
  }

  lemma TwoClaims(fs: FeeSchedule, m: Market, u: string, v: string)
    requires SpotMarket(m)
    ensures
      var b := BidAndAsk(u, v);
      Claim(fs, m, b, u, m.quote) == CostOf(1.0, 10.0, fs.RatesOf(u).taker) && Claim(fs, m, b, v, m.base) == 1.0 &&
      Book.Cancel(b, "a").1 && Book.Cancel(b, "c").1
  {
    hide LastTier, CostOf, QueueClaim, Flat;
    var b := BidAndAsk(u, v);
    FlatOne(b.bids[0]);
    FlatOne(b.asks[0]);
    OnlyClaim(fs, m, LegacyOf(Patient(u)), u, m.quote);
    OnlyClaim(fs, m, LegacyOf(Seller(v)), u, m.quote);
    OnlyClaim(fs, m, LegacyOf(Patient(u)), v, m.base);
    OnlyClaim(fs, m, LegacyOf(Seller(v)), v, m.base);
    assert LegacyOf(Patient(u)).Open() == 1.0 && LegacyOf(Seller(v)).Open() == 1.0;
    assert b.bids[0].orders[0].id == "a" && b.asks[0].orders[0].id == "c";
    assert Has(b.bids[0].orders, "a") && Has(b.asks[0].orders, "c");
  }

  /** Where the quote asset is BTC: a limit buy and a limit sell of one user; cancelling the sell takes from
      the hold of the buy. */
  lemma SellCancelFails(fs: FeeSchedule, m: Market, u: string)
    requires SpotMarket(m) && ScheduleOk(fs) && !Exempt(u) && m.quote == "BTC"
    ensures AllOffered(fs, m, START, Then(fs, m, u, u, Withdrawal("c", false)))
    ensures
      var d := TellAll(fs, m, START, Then(fs, m, u, u, Withdrawal("c", false))).desk;
      d.funds.Held(u, m.quote) < Claim(fs, m, d.book, u, m.quote)
  {
    hide LastTier, CostOf, BidAndAsk, Claim, ScheduleOk, Funded, Offered, TellAll, AllOffered, Withdraw, At, Cancel;
    CancelOffered(fs, m, u, u, "c");
    var s := ThenStands(fs, m, u, u, Withdrawal("c", false));
    TwoClaims(fs, m, u, u);
    PositiveCost(fs, u);
    WithdrawAt(fs, m, s, "c", false, u, m.quote);
  }

  /** Where the base asset is USDT: cancelling the buy takes from the hold of the sell. */
  lemma BuyCancelFails(fs: FeeSchedule, m: Market, u: string)
    requires SpotMarket(m) && ScheduleOk(fs) && !Exempt(u) && m.base == "USDT"
    ensures AllOffered(fs, m, START, Then(fs, m, u, u, Withdrawal("a", false)))
    ensures
      var d := TellAll(fs, m, START, Then(fs, m, u, u, Withdrawal("a", false))).desk;
      d.funds.Held(u, m.base) < Claim(fs, m, d.book, u, m.base)
  {
    hide LastTier, CostOf, BidAndAsk, Claim, ScheduleOk, Funded, Offered, TellAll, AllOffered, Withdraw, At, Cancel;
    CancelOffered(fs, m, u, u, "a");
    var s := ThenStands(fs, m, u, u, Withdrawal("a", false));
    TwoClaims(fs, m, u, u);
    PositiveCost(fs, u);
    WithdrawAt(fs, m, s, "a", false, u, m.base);
  }

  /** Where the base asset is not BTC, as in the ETH-USDT market: cancelling a sell leaves its hold. */
  lemma SellKeepsHold(fs: FeeSchedule, m: Market, u: string)
    requires SpotMarket(m) && ScheduleOk(fs) && !Exempt(u) && m.base != "BTC"
    ensures AllOffered(fs, m, START, Then(fs, m, u, Other(u), Withdrawal("c", false)))
    ensures
      var d := TellAll(fs, m, START, Then(fs, m, u, Other(u), Withdrawal("c", false))).desk;
      d.funds.Held(Other(u), m.base) == 1.0 && Claim(fs, m, d.book, Other(u), m.base) == 0.0 &&
      "c" in d.orders && d.orders["c"].stage.Withdrawn?
  {
    hide LastTier, CostOf, BidAndAsk, Claim, ScheduleOk, Funded, Offered, TellAll, AllOffered, At, Cancel, ReleaseOpen;
    CancelOffered(fs, m, u, Other(u), "c");
    var s := ThenStands(fs, m, u, Other(u), Withdrawal("c", false));
    TwoClaims(fs, m, u, Other(u));
    WithdrawAt(fs, m, s, "c", false, Other(u), m.base);
  }

  // ---------------------------------------------------------------------------
  // When every run stays solvent
  // ---------------------------------------------------------------------------

  lemma {:induction false} NoMarketBuys(fs: FeeSchedule, m: Market, s: Told, rs: seq<Request>, user: string)
    requires forall i :: 0 <= i < |rs| && rs[i].Place? ==> rs[i].order.otype.Limit?
    ensures !SomeMarketShorts(fs, m, s, rs, user)
    decreases |rs|
  {
    hide Tell, Accepts, MatchAll, Claim, OwedAll, Refused;
    if rs != [] { NoMarketBuys(fs, m, Tell(fs, m, s, rs[0]), rs[1..], user); }
  }

  /** No market buy of the run leaves its owner short. */
  ghost predicate MarketBuysFit(fs: FeeSchedule, m: Market, rs: seq<Request>) {
    forall user :: !Exempt(user) ==> !SomeMarketShorts(fs, m, START, rs, user)
  }

  lemma Unbacked(fs: FeeSchedule, m: Market, rs: seq<Request>, user: string, asset: string)
    requires !Exempt(user)
    requires var d := TellAll(fs, m, START, rs).desk; d.funds.Held(user, asset) < Claim(fs, m, d.book, user, asset)
    ensures !Solvent(fs, m, TellAll(fs, m, START, rs))
  {
    hide Claim, Funded, TellAll;
    var d := TellAll(fs, m, START, rs).desk;
    assert !(Claim(fs, m, d.book, user, asset) <= d.funds.Held(user, asset));
    assert !CoveredFor(fs, m, d, user);
  }

  lemma FitStaysSolvent(fs: FeeSchedule, m: Market, rs: seq<Request>)
    requires SpotMarket(m) && ScheduleOk(fs) && AllOffered(fs, m, START, rs) && MarketBuysFit(fs, m, rs)
    requires NamesFit(m) && forall user :: !Exempt(user) ==> RatesFit(fs, user)
    ensures Solvent(fs, m, TellAll(fs, m, START, rs))
  {
    hide ScheduleOk, AllOffered, TellAll, RatesFit, Claim, Funded, CoveredFor, SomeMarketShorts, NamesFit, Offered;
    StartFunded(fs, m);
    AllFunded(fs, m, START, rs);
    forall user | !Exempt(user) ensures CoveredFor(fs, m, TellAll(fs, m, START, rs).desk, user) {
      NobodyModest(fs, m, user);
      forall i | 0 <= i < |rs| ensures Fitting(fs, m, rs[i], user) { OfferedFits(fs, m, START, rs, i, user); }
      EveryOrderStaysBacked(fs, m, START, rs, user);
      CoveredAtEnd(fs, m, START, rs, user);
    }
  }

  lemma NobodyModest(fs: FeeSchedule, m: Market, user: string)
    ensures Everywhere(START.desk.book, ModestIn(fs, m, user, m.quote))
  {}

  lemma {:induction false} OfferedFits(fs: FeeSchedule, m: Market, s: Told, rs: seq<Request>, i: nat, user: string)
    requires AllOffered(fs, m, s, rs) && i < |rs| && RatesFit(fs, user)
    ensures Fitting(fs, m, rs[i], user)
    decreases i
  {
    hide Tell;
    if i > 0 { OfferedFits(fs, m, Tell(fs, m, s, rs[0]), rs[1..], i - 1, user); }
  }

  /** In a spot market every run from an empty desk whose market buys fit stays solvent, if and only if no
      user's taker rate exceeds the maker rate, the quote asset is not BTC and the base asset is not USDT. */
  lemma BackedIff(fs: FeeSchedule, m: Market)
    requires SpotMarket(m) && ScheduleOk(fs)
    ensures (forall rs :: AllOffered(fs, m, START, rs) && MarketBuysFit(fs, m, rs) ==> Solvent(fs, m, TellAll(fs, m, START, rs))) <==>
      (NamesFit(m) && forall user :: !Exempt(user) ==> RatesFit(fs, user))
  {
    hide ScheduleOk, AllOffered, TellAll, RatesFit, Claim, Solvent, SomeMarketShorts;
    if NamesFit(m) && forall user :: !Exempt(user) ==> RatesFit(fs, user) {
      forall rs | AllOffered(fs, m, START, rs) && MarketBuysFit(fs, m, rs) ensures Solvent(fs, m, TellAll(fs, m, START, rs)) {
        FitStaysSolvent(fs, m, rs);
      }
    } else {
      var rs := BreakingRun(fs, m);
    }
  }

  lemma BreakingRun(fs: FeeSchedule, m: Market) returns (rs: seq<Request>)
    requires SpotMarket(m) && ScheduleOk(fs) && !(NamesFit(m) && forall user :: !Exempt(user) ==> RatesFit(fs, user))
    ensures AllOffered(fs, m, START, rs) && MarketBuysFit(fs, m, rs) && !Solvent(fs, m, TellAll(fs, m, START, rs))
  {
    hide ScheduleOk, AllOffered, TellAll, RatesFit, Claim, Solvent, SomeMarketShorts, Exempt;
    var user := Other("");
    if m.quote == "BTC" {
      rs := Then(fs, m, user, user, Withdrawal("c", false));
      SellCancelFails(fs, m, user);
      Unbacked(fs, m, rs, user, m.quote);
    } else if m.base == "USDT" {
      rs := Then(fs, m, user, user, Withdrawal("a", false));
      BuyCancelFails(fs, m, user);
      Unbacked(fs, m, rs, user, m.base);
    } else {
      user :| !Exempt(user) && !RatesFit(fs, user);
      rs := ShortRun(fs, m, user);
      ShortRunFails(fs, m, user);
      Unbacked(fs, m, rs, user, m.quote);
    }
    forall other ensures !SomeMarketShorts(fs, m, START, rs, other) { NoMarketBuys(fs, m, START, rs, other); }
  }
}
