/** Claims: what open orders may still cost their owners, and why matching never owes more than it
    frees.  An order's claim is what is still reserved for it. */
module Claims {
  import opened Book
  import opened Priority
  import opened BookInvariant
  import opened BookQueues
  import opened Accounts
  import opened Execution
  import opened OmsState
  import opened Desk
  import opened DeskQueues
  import opened OmsAgreement
  import Walk

  /** A spot market, with fees in its quote asset or in VLX. */
  predicate SpotMarket(m: Market) {
    m.base != m.quote && m.feeAsset == m.quote && !m.futures
  }

  /** The two internal counterparties trade without holds. */
  predicate Exempt(user: string) { user == LIQUIDATOR || user == EXTERNAL }

  // ---------------------------------------------------------------------------
  // Claims: what an open order may still cost its owner
  // ---------------------------------------------------------------------------

  /** The rate an order's fee is reserved at. */
  function ClaimRate(fs: FeeSchedule, r: OrderView): real {
    if r.postOnly then fs.RatesOf(r.user).maker else fs.RatesOf(r.user).taker
  }

  function OrderClaim(fs: FeeSchedule, m: Market, r: OrderView, user: string, asset: string): real {
    if r.user != user then 0.0
    else if r.side.Buy? then if asset == m.quote then CostOf(r.Open(), r.price, ClaimRate(fs, r)) else 0.0
    else if asset == m.base then r.Open() else 0.0
  }

  function QueueClaim(fs: FeeSchedule, m: Market, q: seq<OrderView>, user: string, asset: string): real {
    if q == [] then 0.0 else OrderClaim(fs, m, q[0], user, asset) + QueueClaim(fs, m, q[1..], user, asset)
  }

  function Claim(fs: FeeSchedule, m: Market, b: BookView, user: string, asset: string): real {
    QueueClaim(fs, m, b.Queue(Buy), user, asset) + QueueClaim(fs, m, b.Queue(Sell), user, asset)
  }

  /** What a trade releases of a user's hold. */
  function Owed(fs: FeeSchedule, m: Market, t: Trade, user: string, asset: string): real {
    (if t.buyerId == user && asset == m.quote then Value(t) + BuyerRaw(fs, t) else 0.0) +
    (if t.sellerId == user && asset == m.base then t.qty else 0.0)
  }

  function OwedAll(fs: FeeSchedule, m: Market, trades: seq<Trade>, user: string, asset: string): real {
    if trades == [] then 0.0 else Owed(fs, m, trades[0], user, asset) + OwedAll(fs, m, trades[1..], user, asset)
  }

  predicate Priced(r: OrderView) { r.price >= 0.0 }

  predicate RatesFit(fs: FeeSchedule, user: string) { fs.RatesOf(user).taker <= fs.RatesOf(user).maker }

  /** An order whose reservation covers what its fills release of a user's hold: fills of a buy release at
      the taker rate, but a post-only buy is reserved at the maker rate. */
  predicate Modest(fs: FeeSchedule, m: Market, r: OrderView, user: string, asset: string) {
    Priced(r) && (r.user == user && asset == m.quote && r.side.Buy? && r.postOnly ==> RatesFit(fs, user))
  }

  /** A market buy is reserved at the price it names, but trades at whatever price it meets. */
  predicate WithinPrice(t: OrderView, price: real) { t.side.Buy? && !t.otype.Limit? ==> price <= t.price }

  predicate Fits(t: OrderView, q: seq<OrderView>) { forall i :: 0 <= i < |q| ==> WithinPrice(t, q[i].price) }

  predicate FitsOut(t: OrderView, levels: seq<ExtLevel>) { forall i :: 0 <= i < |levels| ==> WithinPrice(t, levels[i].price) }

  predicate FitsAll(b: BookView, t: OrderView, a: Answers) {
    Fits(t, b.Queue(t.side.Opposite())) && FitsOut(t, a.external)
  }

  function PricedOnes(): OrderView -> bool { r => Priced(r) }

  function ModestIn(fs: FeeSchedule, m: Market, user: string, asset: string): OrderView -> bool {
    r => Modest(fs, m, r, user, asset)
  }

  lemma CostSplits(a: real, b: real, price: real, rate: real)
    ensures CostOf(a + b, price, rate) == CostOf(a, price, rate) + CostOf(b, price, rate)
  {}

  lemma CostGrows(qty: real, price: real, price': real, rate: real)
    requires qty >= 0.0 && rate >= 0.0 && price <= price'
    ensures CostOf(qty, price, rate) <= CostOf(qty, price', rate)
    ensures price >= 0.0 ==> CostOf(qty, price, rate) >= 0.0
  {
    Scales(price, price', qty);
    Scales(price * qty, price' * qty, 1.0 + rate);
    if price >= 0.0 {
      Scales(0.0, price, qty);
      Scales(0.0, price * qty, 1.0 + rate);
    }
  }

  /** The claim of a buy covers the taker fee on it. */
  lemma ClaimPays(fs: FeeSchedule, r: OrderView, amount: real)
    requires Priced(r) && (r.postOnly ==> RatesFit(fs, r.user)) && amount >= 0.0
    ensures CostOf(amount, r.price, ClaimRate(fs, r)) >= CostOf(amount, r.price, fs.RatesOf(r.user).taker)
  {
    hide LastTier;
    Scales(0.0, r.price, amount);
    assert amount * r.price == r.price * amount;
    Scales(1.0 + fs.RatesOf(r.user).taker, 1.0 + ClaimRate(fs, r), amount * r.price);
  }

  lemma Scales(a: real, b: real, c: real)
    requires a <= b && c >= 0.0
    ensures a * c <= b * c
  {}

  lemma CostIsPayment(t: Trade, rate: real)
    ensures CostOf(t.qty, t.price, rate) == Value(t) + RawFee(Value(t), rate)
  {
    assert t.qty * t.price * (1.0 + rate) == t.qty * t.price + t.qty * t.price * rate;
  }

  lemma ClaimNonNegative(fs: FeeSchedule, m: Market, r: OrderView, user: string, asset: string)
    requires ScheduleOk(fs) && Priced(r) && r.Open() >= 0.0
    ensures OrderClaim(fs, m, r, user, asset) >= 0.0
  {
    RatesOfOk(fs, r.user);
    RatesSane(fs.RatesOf(r.user));
    CostGrows(r.Open(), r.price, r.price, ClaimRate(fs, r));
  }

  /** Filling part of an order reduces its claim by the cost of that part at its own price. */
  lemma TakeReduces(fs: FeeSchedule, m: Market, r: OrderView, amount: real, user: string, asset: string)
    ensures OrderClaim(fs, m, r, user, asset) == OrderClaim(fs, m, r.Take(amount), user, asset) +
      OrderClaim(fs, m, r.(filled := r.qty - amount), user, asset)
  {
    hide CostOf, LastTier;
    assert r.Open() == r.Take(amount).Open() + amount && r.(filled := r.qty - amount).Open() == amount;
    CostSplits(r.Take(amount).Open(), amount, r.price, ClaimRate(fs, r));
  }

  /** A fill takes at least its payment out of the two claims. */
  lemma FillCovered(fs: FeeSchedule, m: Market, t: OrderView, r: OrderView, amount: real, n: nat, user: string, asset: string)
    requires ScheduleOk(fs) && m.base != m.quote && !Exempt(user) && amount >= 0.0
    requires Modest(fs, m, t, user, asset) && Modest(fs, m, r, user, asset)
    requires Crosses(t, r.price) && r.side == t.side.Opposite() && (t.user == user && asset == m.quote ==> WithinPrice(t, r.price))
    ensures
      OrderClaim(fs, m, r, user, asset) + OrderClaim(fs, m, t, user, asset) >=
      OrderClaim(fs, m, r.Take(amount), user, asset) + OrderClaim(fs, m, t.Take(amount), user, asset) +
      Owed(fs, m, TradeOf(t, FillOf(r, amount), n), user, asset)
  {
    hide CostOf, LastTier, RatesOk, RawFee, Value;
    TakeReduces(fs, m, r, amount, user, asset);
    TakeReduces(fs, m, t, amount, user, asset);
    PartsPay(fs, m, t, r, amount, n, user, asset);
  }

  lemma PartsPay(fs: FeeSchedule, m: Market, t: OrderView, r: OrderView, amount: real, n: nat, user: string, asset: string)
    requires ScheduleOk(fs) && m.base != m.quote && !Exempt(user) && amount >= 0.0
    requires Modest(fs, m, t, user, asset) && Modest(fs, m, r, user, asset)
    requires Crosses(t, r.price) && r.side == t.side.Opposite() && (t.user == user && asset == m.quote ==> WithinPrice(t, r.price))
    ensures
      OrderClaim(fs, m, r.(filled := r.qty - amount), user, asset) + OrderClaim(fs, m, t.(filled := t.qty - amount), user, asset) >=
      Owed(fs, m, TradeOf(t, FillOf(r, amount), n), user, asset)
  {
    hide CostOf, LastTier, RawFee, Value;
    var trade := TradeOf(t, FillOf(r, amount), n);
    RatesOfOk(fs, user);
    var rate := fs.RatesOf(user).taker;
    CostIsPayment(trade, rate);
    if asset == m.quote && t.side.Buy? && t.user == user {
      CostGrows(amount, r.price, t.price, rate);
      ClaimPays(fs, t, amount);
    } else if asset == m.quote && r.side.Buy? && r.user == user {
      ClaimPays(fs, r, amount);
    }
    assert r.(filled := r.qty - amount).Open() == amount && t.(filled := t.qty - amount).Open() == amount;
  }

  // ---------------------------------------------------------------------------
  // Matching never owes more than it frees
  // ---------------------------------------------------------------------------

  /** A queue of open orders of one side. */
  predicate PricedQueue(q: seq<OrderView>, side: Side) {
    forall i :: 0 <= i < |q| ==> Priced(q[i]) && q[i].side == side && 0.0 <= q[i].filled < q[i].qty
  }

  predicate ModestQueue(fs: FeeSchedule, m: Market, q: seq<OrderView>, side: Side, user: string, asset: string) {
    PricedQueue(q, side) && forall i :: 0 <= i < |q| ==> Modest(fs, m, q[i], user, asset)
  }

  lemma {:induction false} QueueNonNegative(fs: FeeSchedule, m: Market, q: seq<OrderView>, side: Side, user: string, asset: string)
    requires ScheduleOk(fs) && PricedQueue(q, side)
    ensures QueueClaim(fs, m, q, user, asset) >= 0.0
    ensures m.base != m.quote && asset == (if side.Buy? then m.base else m.quote) ==> QueueClaim(fs, m, q, user, asset) == 0.0
    decreases |q|
  {
    hide ScheduleOk, ClaimRate, CostOf;
    if q != [] {
      ClaimNonNegative(fs, m, q[0], user, asset);
      QueueNonNegative(fs, m, q[1..], side, user, asset);
    }
  }

  lemma {:induction false} ClaimConcat(fs: FeeSchedule, m: Market, a: seq<OrderView>, b: seq<OrderView>, user: string, asset: string)
    ensures QueueClaim(fs, m, a + b, user, asset) == QueueClaim(fs, m, a, user, asset) + QueueClaim(fs, m, b, user, asset)
    decreases |a|
  {
    hide OrderClaim;
    if a == [] {
      assert a + b == b;
    } else {
      assert (a + b)[1..] == a[1..] + b && (a + b)[0] == a[0];
      ClaimConcat(fs, m, a[1..], b, user, asset);
    }
  }

  lemma ClaimPush(fs: FeeSchedule, m: Market, o: OrderView, q: seq<OrderView>, user: string, asset: string)
    ensures QueueClaim(fs, m, [o] + q, user, asset) == OrderClaim(fs, m, o, user, asset) + QueueClaim(fs, m, q, user, asset)
  {
    assert ([o] + q)[1..] == q;
  }

  /** The trades of a sweep, first fill first. */
  lemma FirstTrade(t: OrderView, f: Fill, fills: seq<Fill>, n: nat)
    ensures TradesOf(t, [f] + fills, n) == [TradeOf(t, f, n + 1)] + TradesOf(t, fills, n + 1)
  {
    assert ([f] + fills)[1..] == fills;
  }

  lemma OwedPush(fs: FeeSchedule, m: Market, t: Trade, ts: seq<Trade>, user: string, asset: string)
    ensures OwedAll(fs, m, [t] + ts, user, asset) == Owed(fs, m, t, user, asset) + OwedAll(fs, m, ts, user, asset)
  {
    assert ([t] + ts)[1..] == ts;
  }

  /** What a sweep does at the head of the queue: stop, cancel the head and go on, or trade. */
  lemma SweepCases(mode: STPMode, t: OrderView, q: seq<OrderView>) returns (f: Fill, amount: real, next: OrderView)
    requires q != [] && OrderOk(t) && 0.0 <= q[0].filled < q[0].qty
    ensures
      var x := Sweep(mode, t, q);
      amount >= 0.0 && f == FillOf(q[0], amount) && next == t.Take(amount) &&
      if t.Open() <= 0.0 || !Crosses(t, q[0].price) then x == Outcome(t, [], [], q, false)
      else if SelfTrade(mode, t, q[0]) then
        (x.fills == [] && (x.queue == q || x.queue == q[1..]) && x.taker == t.(status := Cancelled)) ||
        (x.fills == Sweep(mode, t, q[1..]).fills && x.queue == Sweep(mode, t, q[1..]).queue &&
         x.taker == Sweep(mode, t, q[1..]).taker)
      else
        (x.fills == [f] && x.queue == [q[0].Take(amount)] + q[1..] && x.taker == next) ||
        (x.fills == [f] + Sweep(mode, next, q[1..]).fills && x.queue == Sweep(mode, next, q[1..]).queue &&
         x.taker == Sweep(mode, next, q[1..]).taker && q[0].Take(amount).Open() == 0.0 && OrderOk(next))
  {
    amount := Floor(Min(t.Open(), q[0].Open()));
    f, next := FillOf(q[0], amount), t.Take(amount);
  }

  /** Potential: the claims of the queue and of the incoming order cover the claims left after the
      sweep and everything its trades release. */
  lemma {:induction false} SweepCovered(fs: FeeSchedule, m: Market, mode: STPMode, t: OrderView, q: seq<OrderView>,
                                        n: nat, user: string, asset: string)
    requires ScheduleOk(fs) && m.base != m.quote && !Exempt(user) && ModestQueue(fs, m, q, t.side.Opposite(), user, asset)
    requires (t.user == user && asset == m.quote ==> Fits(t, q)) && Modest(fs, m, t, user, asset) && OrderOk(t)
    ensures
      var x := Sweep(mode, t, q);
      QueueClaim(fs, m, q, user, asset) + OrderClaim(fs, m, t, user, asset) >=
      QueueClaim(fs, m, x.queue, user, asset) + OrderClaim(fs, m, x.taker, user, asset) +
      OwedAll(fs, m, TradesOf(t, x.fills, n), user, asset)
    decreases |q|
  {
    hide Sweep, OrderClaim, Owed, TradesOf, TradeOf, ScheduleOk, Crosses, SelfTrade;
    if q == [] {
      SweepNothing(mode, t);
      NoTrades(t, n);
    } else {
      var f, amount, next := SweepCases(mode, t, q);
      assert ModestQueue(fs, m, q[1..], t.side.Opposite(), user, asset);
      ClaimNonNegative(fs, m, q[0], user, asset);
      NoTrades(t, n);
      if t.Open() <= 0.0 || !Crosses(t, q[0].price) {
      } else if SelfTrade(mode, t, q[0]) {
        SweepCovered(fs, m, mode, t, q[1..], n, user, asset);
        StatusClaim(fs, m, t, Cancelled, user, asset);
      } else {
        FillCovered(fs, m, t, q[0], amount, n + 1, user, asset);
        if OrderOk(next) { SweepCovered(fs, m, mode, next, q[1..], n + 1, user, asset); }
        TradeCovered(fs, m, mode, t, q, f, amount, next, n, user, asset);
      }
    }
  }

  lemma NoTrades(t: OrderView, n: nat)
    ensures TradesOf(t, [], n) == []
  {}

  lemma StatusClaim(fs: FeeSchedule, m: Market, t: OrderView, status: Status, user: string, asset: string)
    ensures OrderClaim(fs, m, t.(status := status), user, asset) == OrderClaim(fs, m, t, user, asset)
  {}

  lemma TradeCovered(fs: FeeSchedule, m: Market, mode: STPMode, t: OrderView, q: seq<OrderView>, f: Fill, amount: real,
                     next: OrderView, n: nat, user: string, asset: string)
    requires ScheduleOk(fs) && q != [] && f == FillOf(q[0], amount) && next == t.Take(amount)
    requires Priced(q[0])
    requires
      OrderClaim(fs, m, q[0], user, asset) + OrderClaim(fs, m, t, user, asset) >=
      OrderClaim(fs, m, q[0].Take(amount), user, asset) + OrderClaim(fs, m, next, user, asset) +
      Owed(fs, m, TradeOf(t, f, n + 1), user, asset)
    requires
      var x, y := Sweep(mode, t, q), Sweep(mode, next, q[1..]);
      (x.fills == [f] && x.queue == [q[0].Take(amount)] + q[1..] && x.taker == next) ||
      (x.fills == [f] + y.fills && x.queue == y.queue && x.taker == y.taker && q[0].Take(amount).Open() == 0.0 &&
       QueueClaim(fs, m, q[1..], user, asset) + OrderClaim(fs, m, next, user, asset) >=
       QueueClaim(fs, m, y.queue, user, asset) + OrderClaim(fs, m, y.taker, user, asset) +
       OwedAll(fs, m, TradesOf(next, y.fills, n + 1), user, asset))
    ensures
      var x := Sweep(mode, t, q);
      QueueClaim(fs, m, q, user, asset) + OrderClaim(fs, m, t, user, asset) >=
      QueueClaim(fs, m, x.queue, user, asset) + OrderClaim(fs, m, x.taker, user, asset) +
      OwedAll(fs, m, TradesOf(t, x.fills, n), user, asset)
  {
    hide Sweep, OrderClaim, Owed, TradesOf, TradeOf, ScheduleOk;
    var x, y := Sweep(mode, t, q), Sweep(mode, next, q[1..]);
    var trade := TradeOf(t, f, n + 1);
    NoTrades(t, n + 1);
    if x.fills == [f] && x.queue == [q[0].Take(amount)] + q[1..] && x.taker == next {
      assert [f] + [] == [f];
      FirstTrade(t, f, [], n);
      OwedPush(fs, m, trade, [], user, asset);
      ClaimPush(fs, m, q[0].Take(amount), q[1..], user, asset);
    } else {
      FirstTrade(t, f, y.fills, n);
      Walk.SameTrades(t, next, y.fills, n + 1);
      OwedPush(fs, m, trade, TradesOf(t, y.fills, n + 1), user, asset);
      ClaimNonNegative(fs, m, q[0].Take(amount), user, asset);
    }
  }

  /** The external walk, likewise. */
  lemma {:induction false} OutCovered(fs: FeeSchedule, m: Market, t: OrderView, levels: seq<ExtLevel>, user: string, asset: string)
    requires ScheduleOk(fs) && m.base != m.quote && !Exempt(user) && Modest(fs, m, t, user, asset)
    requires t.user == user && asset == m.quote ==> FitsOut(t, levels)
    ensures
      var x := ExtSweep(t, levels);
      OrderClaim(fs, m, t, user, asset) >= OrderClaim(fs, m, x.order, user, asset) + OwedAll(fs, m, x.trades, user, asset)
    decreases |levels|
  {
    hide OrderClaim, Owed, ScheduleOk;
    if levels != [] && t.Open() > 0.0 && Crosses(t, levels[0].price) {
      var amount := Min(t.Open(), levels[0].qty);
      if amount <= 0.0 {
        OutCovered(fs, m, t, levels[1..], user, asset);
      } else {
        var status := if t.filled + amount >= t.qty then Filled else PartiallyFilled;
        var next := t.(filled := t.filled + amount, status := status);
        OutCovered(fs, m, next, levels[1..], user, asset);
        StatusClaim(fs, m, t.Take(amount), status, user, asset);
        OutFill(fs, m, t, levels[0], amount, user, asset);
        OwedPush(fs, m, ExtTrade(t, levels[0], amount), ExtSweep(next, levels[1..]).trades, user, asset);
      }
    }
  }

  lemma OutFill(fs: FeeSchedule, m: Market, t: OrderView, l: ExtLevel, amount: real, user: string, asset: string)
    requires ScheduleOk(fs) && m.base != m.quote && !Exempt(user) && amount >= 0.0 && Modest(fs, m, t, user, asset)
    requires Crosses(t, l.price) && (t.user == user && asset == m.quote ==> WithinPrice(t, l.price))
    ensures OrderClaim(fs, m, t, user, asset) >=
      OrderClaim(fs, m, t.Take(amount), user, asset) + Owed(fs, m, ExtTrade(t, l, amount), user, asset)
  {
    hide CostOf, LastTier, RawFee, Value, RatesOk;
    TakeReduces(fs, m, t, amount, user, asset);
    RatesOfOk(fs, user);
    RatesSane(fs.RatesOf(user));
    CostIsPayment(ExtTrade(t, l, amount), fs.RatesOf(user).taker);
    if asset == m.quote && t.side.Buy? && t.user == user {
      CostGrows(amount, l.price, t.price, fs.RatesOf(user).taker);
      ClaimPays(fs, t, amount);
    }
    assert t.(filled := t.qty - amount).Open() == amount;
  }

  lemma RatesSane(r: Rates)
    requires RatesOk(r)
    ensures r.taker >= 0.0 && 0.0 <= r.maker <= 1.0
  {}

  lemma {:induction false} OwedConcat(fs: FeeSchedule, m: Market, a: seq<Trade>, b: seq<Trade>, user: string, asset: string)
    ensures OwedAll(fs, m, a + b, user, asset) == OwedAll(fs, m, a, user, asset) + OwedAll(fs, m, b, user, asset)
    decreases |a|
  {
    hide Owed;
    if a == [] {
      assert a + b == b;
    } else {
      assert (a + b)[1..] == a[1..] + b && (a + b)[0] == a[0];
      OwedConcat(fs, m, a[1..], b, user, asset);
    }
  }

  lemma ClaimMiddle(fs: FeeSchedule, m: Market, ahead: seq<OrderView>, o: OrderView, behind: seq<OrderView>, user: string, asset: string)
    ensures QueueClaim(fs, m, ahead + [o] + behind, user, asset) ==
      QueueClaim(fs, m, ahead + behind, user, asset) + OrderClaim(fs, m, o, user, asset)
  {
    ClaimConcat(fs, m, ahead, behind, user, asset);
    ClaimConcat(fs, m, ahead, [o] + behind, user, asset);
    ClaimPush(fs, m, o, behind, user, asset);
    assert ahead + [o] + behind == ahead + ([o] + behind);
  }

  lemma TermsModest(fs: FeeSchedule, m: Market, a: OrderView, b: OrderView, user: string, asset: string)
    requires SameTerms(a, b) && Modest(fs, m, a, user, asset)
    ensures Modest(fs, m, b, user, asset)
  {}

  lemma TermsClaim(fs: FeeSchedule, m: Market, a: OrderView, b: OrderView, user: string, asset: string)
    requires SameTerms(a, b) && a.filled == b.filled
    ensures OrderClaim(fs, m, a, user, asset) == OrderClaim(fs, m, b, user, asset)
  {}

  /** All trades of a submission, local and external, are covered by the incoming order's claim. */
  lemma TakerCovered(fs: FeeSchedule, m: Market, orders: Register, o: OmsOrder, b: BookView, a: Answers, user: string, asset: string)
    requires ScheduleOk(fs) && m.base != m.quote && !Exempt(user) && Meets(orders, o, b)
    requires Modest(fs, m, LegacyOf(o), user, asset) && Everywhere(b, ModestIn(fs, m, user, asset))
    requires o.user == user && asset == m.quote ==> FitsAll(b, LegacyOf(o), a)
    ensures
      var t, opposite := LegacyOf(o), o.side.Opposite();
      var all := MatchAll(b, t, a);
      QueueClaim(fs, m, b.Queue(opposite), user, asset) + OrderClaim(fs, m, t, user, asset) >=
      QueueClaim(fs, m, Sweep(b.mode, t, b.Queue(opposite)).queue, user, asset) +
      OrderClaim(fs, m, all.order, user, asset) + OwedAll(fs, m, all.trades, user, asset)
  {
    hide Match, Refused, Sweep, BookInv, Flat, ExtSweep, AllOk, Ids, TradesOf, OrderClaim, Owed, OwedAll, QueueClaim, ScheduleOk, Modest;
    var t, q := LegacyOf(o), b.Queue(o.side.Opposite());
    MeetsQueue(orders, o, b);
    SidesModest(fs, m, b, user, asset);
    var l := Match(b, t);
    var x := Sweep(b.mode, t, q);
    var ahead, behind := LocalQueues(b, t);
    SweepCovered(fs, m, b.mode, t, q, b.watch.number, user, asset);
    SweepKeepsTerms(b.mode, t, q);
    TermsClaim(fs, m, x.taker, l.order, user, asset);
    if GoesOut(l.order, a) {
      TermsModest(fs, m, t, l.order, user, asset);
      assert FitsOut(t, a.external) ==> FitsOut(l.order, a.external);
      OutCovered(fs, m, l.order, a.external, user, asset);
      OwedConcat(fs, m, l.trades, ExtSweep(l.order, a.external).trades, user, asset);
    }
  }

  lemma SidesPriced(b: BookView)
    requires BookInv(b) && Everywhere(b, PricedOnes())
    ensures PricedQueue(b.Queue(Buy), Buy) && PricedQueue(b.Queue(Sell), Sell)
  {
    forall k | 0 <= k < |b.Queue(Buy)| ensures RestingOk(b.Queue(Buy)[k], Buy, b.Queue(Buy)[k].price) {
      FlatPrices(b.bids, Buy, k);
    }
    forall k | 0 <= k < |b.Queue(Sell)| ensures RestingOk(b.Queue(Sell)[k], Sell, b.Queue(Sell)[k].price) {
      FlatPrices(b.asks, Sell, k);
    }
  }

  lemma SidesModest(fs: FeeSchedule, m: Market, b: BookView, user: string, asset: string)
    requires BookInv(b) && Everywhere(b, ModestIn(fs, m, user, asset))
    ensures ModestQueue(fs, m, b.Queue(Buy), Buy, user, asset) && ModestQueue(fs, m, b.Queue(Sell), Sell, user, asset)
  {
    hide Flat, BookInv;
    assert Everywhere(b, PricedOnes());
    SidesPriced(b);
  }

  /** The claims on the book and of a submission cover the claims left and what its trades release. */
  lemma MatchCovered(fs: FeeSchedule, m: Market, orders: Register, o: OmsOrder, b: BookView, a: Answers, user: string, asset: string)
    requires ScheduleOk(fs) && m.base != m.quote && !Exempt(user) && Meets(orders, o, b)
    requires Modest(fs, m, LegacyOf(o), user, asset) && Everywhere(b, ModestIn(fs, m, user, asset))
    requires o.user == user && asset == m.quote ==> FitsAll(b, LegacyOf(o), a)
    ensures
      var all := MatchAll(b, LegacyOf(o), a);
      Claim(fs, m, b, user, asset) + OrderClaim(fs, m, LegacyOf(o), user, asset) >=
      Claim(fs, m, all.book, user, asset) + OwedAll(fs, m, all.trades, user, asset)
  {
    hide Match, MatchAll, Refused, Sweep, BookInv, Flat, AllOk, Ids, OrderClaim, Owed, OwedAll, QueueClaim, ScheduleOk;
    var t := LegacyOf(o);
    var all := MatchAll(b, t, a);
    MeetsQueue(orders, o, b);
    TakerCovered(fs, m, orders, o, b, a, user, asset);
    var ahead, behind := AllQueues(b, t, a);
    ClaimMiddle(fs, m, ahead, all.order, behind, user, asset);
    ClaimNonNegative(fs, m, all.order, user, asset);
  }
}
