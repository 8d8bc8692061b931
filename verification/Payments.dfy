/** Settling a trade moves exactly what it says: when the holds cover what the trade releases, no
    amount is cut off at zero. */
module Payments {
  import opened Book
  import opened Accounts
  import opened Execution
  import opened Claims

  // ---------------------------------------------------------------------------
  // One movement
  // ---------------------------------------------------------------------------

  lemma ReleaseAt(f: Funds, who: string, kind: string, amount: real, user: string, asset: string)
    requires amount >= 0.0 && f.Held(user, asset) >= 0.0
    ensures
      var after := f.Release(who, kind, amount);
      after.Balance(user, asset) == f.Balance(user, asset) &&
      after.Held(user, asset) == if user == who && asset == kind then Floor(f.Held(user, asset) - amount) else f.Held(user, asset)
  {}

  lemma AdjustAt(f: Funds, who: string, kind: string, change: real, user: string, asset: string)
    ensures
      var after := f.Adjust(who, kind, change);
      after.Held(user, asset) == f.Held(user, asset) &&
      after.Balance(user, asset) ==
        if user == who && asset == kind then Floor(f.Balance(user, asset) + change) else f.Balance(user, asset)
  {}

  // ---------------------------------------------------------------------------
  // One trade
  // ---------------------------------------------------------------------------

  function If(c: bool, v: real): real { if c then v else 0.0 }

  /** What the buyer's balance of an asset gains, fees included. */
  function BuyerGets(m: Market, e: Executed, asset: string): real {
    If(asset == m.base, e.trade.qty) - If(asset == m.quote, Value(e.trade)) - If(asset == e.buyerFeeAsset, e.buyerFee)
  }

  function SellerGets(m: Market, e: Executed, asset: string): real {
    If(asset == m.quote, Value(e.trade)) - If(asset == m.base, e.trade.qty) - If(asset == e.sellerFeeAsset, e.sellerFee)
  }

  function Received(m: Market, e: Executed, user: string, asset: string): real {
    If(user == e.trade.buyerId, BuyerGets(m, e, asset)) + If(user == e.trade.sellerId, SellerGets(m, e, asset))
  }

  /** A trade executed in a spot market: each fee in the quote asset or in VLX, and never negative. */
  predicate FeesOk(m: Market, e: Executed) {
    e.trade.qty >= 0.0 && Value(e.trade) >= 0.0 && e.buyerFee >= 0.0 && e.sellerFee >= 0.0 && e.buyerRawFee >= 0.0 &&
    (e.buyerFeeAsset == m.quote || e.buyerFeeAsset == NATIVE) && (e.sellerFeeAsset == m.quote || e.sellerFeeAsset == NATIVE)
  }

  /** What the buyer pays is cut off at zero. */
  lemma PayBuyerAt(m: Market, f: Funds, e: Executed, user: string, asset: string)
    requires SpotMarket(m) && FeesOk(m, e) && (user == e.trade.buyerId ==> f.Balance(user, asset) >= 0.0)
    ensures
      var after := PayBuyer(m, f, e);
      after.Held(user, asset) == f.Held(user, asset) &&
      after.Balance(user, asset) ==
        if user == e.trade.buyerId then Floor(f.Balance(user, asset) + BuyerGets(m, e, asset)) else f.Balance(user, asset)
  {
    hide Put, At, Value, Funds.Adjust, Funds.Balance, Funds.Held;
    var t := e.trade;
    var f1 := f.Adjust(t.buyerId, m.base, t.qty);
    AdjustAt(f, t.buyerId, m.base, t.qty, user, asset);
    if e.buyerFeeAsset == m.quote {
      AdjustAt(f1, t.buyerId, m.quote, -(Value(t) + e.buyerFee), user, asset);
    } else {
      AdjustAt(f1, t.buyerId, m.quote, -(Value(t)), user, asset);
      AdjustAt(f1.Adjust(t.buyerId, m.quote, -(Value(t))), t.buyerId, e.buyerFeeAsset, -e.buyerFee, user, asset);
    }
  }

  lemma PaySellerAt(m: Market, f: Funds, e: Executed, user: string, asset: string)
    requires SpotMarket(m) && FeesOk(m, e) && (user == e.trade.sellerId ==> f.Balance(user, asset) >= 0.0)
    ensures
      var after := PaySeller(m, f, e);
      after.Held(user, asset) == f.Held(user, asset) &&
      after.Balance(user, asset) ==
        if user == e.trade.sellerId then Floor(f.Balance(user, asset) + SellerGets(m, e, asset)) else f.Balance(user, asset)
  {
    hide Put, At, Value, Funds.Adjust, Funds.Balance, Funds.Held;
    var t := e.trade;
    var f1 := f.Adjust(t.sellerId, m.base, -t.qty);
    AdjustAt(f, t.sellerId, m.base, -t.qty, user, asset);
    if e.sellerFeeAsset == m.quote {
      AdjustAt(f1, t.sellerId, m.quote, Value(t) - e.sellerFee, user, asset);
    } else {
      AdjustAt(f1, t.sellerId, m.quote, Value(t), user, asset);
      AdjustAt(f1.Adjust(t.sellerId, m.quote, Value(t)), t.sellerId, e.sellerFeeAsset, -e.sellerFee, user, asset);
    }
  }

  /** Both releases together take what the trade owes, cut off at zero. */
  lemma ReleaseBothAt(fs: FeeSchedule, m: Market, f: Funds, e: Executed, user: string, asset: string)
    requires SpotMarket(m) && FeesOk(m, e) && e.buyerRawFee == BuyerRaw(fs, e.trade) && f.Held(user, asset) >= 0.0
    ensures
      var after := ReleaseBoth(m, f, e);
      after.Balance(user, asset) == f.Balance(user, asset) &&
      after.Held(user, asset) == Floor(f.Held(user, asset) - Owed(fs, m, e.trade, user, asset))
  {
    hide Put, At, Value, BuyerRaw, Funds.Release, Funds.Balance, Funds.Held;
    var t := e.trade;
    ReleaseAt(f, t.buyerId, m.quote, Value(t) + e.buyerRawFee, user, asset);
    ReleaseAt(f.Release(t.buyerId, m.quote, Value(t) + e.buyerRawFee), t.sellerId, m.base, t.qty, user, asset);
  }

  /** A trade for a positive quantity at a sensible price. */
  predicate TradeOk(t: Trade) { t.qty > 0.0 && t.price >= 0.0 }

  /** Holds within balances, and neither negative. */
  ghost predicate Sane(f: Funds, user: string) { forall asset :: 0.0 <= f.Held(user, asset) <= f.Balance(user, asset) }

  /** Who trades with himself does not pay in VLX. */
  predicate Single(fs: FeeSchedule, t: Trade, user: string) {
    t.buyerId == t.sellerId == user ==> user !in fs.payInNative
  }

  /** A user without VLX holds, in a market without VLX. */
  predicate VlxFree(m: Market, f: Funds, user: string) {
    m.base != NATIVE && m.quote != NATIVE && f.Held(user, NATIVE) == 0.0
  }

  /** A user's holds cover what a trade releases. */
  ghost predicate Covered(fs: FeeSchedule, m: Market, f: Funds, t: Trade, user: string) {
    forall asset :: Owed(fs, m, t, user, asset) <= f.Held(user, asset)
  }

  lemma ValueBounds(t: Trade)
    requires t.qty > 0.0 && t.price >= 0.0
    ensures Value(t) >= 0.0
  {
    Scales(0.0, t.price, t.qty);
    assert Value(t) == t.price * t.qty;
  }

  lemma FeeBounds(value: real, rate: real)
    requires value >= 0.0 && rate >= 0.0
    ensures 0.0 <= RawFee(value, rate) && (rate <= 1.0 ==> RawFee(value, rate) <= value)
  {
    Scales(0.0, rate, value);
    assert RawFee(value, rate) == rate * value;
    if rate <= 1.0 { Scales(rate, 1.0, value); }
  }

  lemma RawBounds(fs: FeeSchedule, t: Trade)
    requires ScheduleOk(fs) && TradeOk(t)
    ensures 0.0 <= Value(t) && 0.0 <= BuyerRaw(fs, t) && 0.0 <= SellerRaw(fs, t) <= Value(t)
  {
    hide LastTier, ScheduleOk, RawFee, Value;
    RatesOfOk(fs, t.buyerId);
    RatesOfOk(fs, t.sellerId);
    ValueBounds(t);
    FeeBounds(Value(t), fs.RatesOf(t.buyerId).taker);
    FeeBounds(Value(t), fs.RatesOf(t.sellerId).maker);
  }

  /** A fee is paid in the market's fee asset at its raw amount, or in VLX out of what is free. */
  lemma ChargeCases(fs: FeeSchedule, f: Funds, user: string, feeAsset: string, raw: real)
    requires raw >= 0.0
    ensures
      var (asset, fee) := Charge(fs, f, user, feeAsset, raw);
      (asset == feeAsset && fee == raw) || (asset == NATIVE && 0.0 <= fee <= f.Available(user, NATIVE))
  {
    hide LastTier, At;
    var p, n := PositiveOr(fs.prices, feeAsset, 1.0), PositiveOr(fs.prices, NATIVE, 2.5);
    NonNegativeDiscount(raw, p, n);
  }

  lemma NonNegativeDiscount(raw: real, p: real, n: real)
    requires raw >= 0.0 && p > 0.0 && n > 0.0
    ensures raw * p / n * 0.75 >= 0.0
  {
    Scales(0.0, p, raw);
    assert raw * p >= 0.0;
    assert raw * p / n >= 0.0;
  }

  lemma FeesKnown(fs: FeeSchedule, m: Market, f: Funds, t: Trade)
    requires SpotMarket(m) && ScheduleOk(fs) && TradeOk(t)
    ensures
      var e := Execute(fs, m, f, t);
      FeesOk(m, e) && e.trade == t && e.buyerRawFee == BuyerRaw(fs, t)
  {
    hide LastTier, At, Value, BuyerRaw, SellerRaw, ScheduleOk, Charge;
    RawBounds(fs, t);
    ChargeCases(fs, f, t.buyerId, m.feeAsset, BuyerRaw(fs, t));
    ChargeCases(fs, f, t.sellerId, m.feeAsset, SellerRaw(fs, t));
  }

  /** What a buyer pays is no more than what the trade releases, or is free VLX. */
  lemma BuyerAffords(fs: FeeSchedule, m: Market, f: Funds, t: Trade, user: string, asset: string)
    requires SpotMarket(m) && ScheduleOk(fs) && TradeOk(t) && user == t.buyerId && Sane(f, user)
    ensures f.Balance(user, asset) + BuyerGets(m, Execute(fs, m, f, t), asset) >= f.Held(user, asset) - Owed(fs, m, t, user, asset)
  {
    hide LastTier, At, Value, BuyerRaw, SellerRaw, ScheduleOk, Charge;
    RawBounds(fs, t);
    ChargeCases(fs, f, user, m.feeAsset, BuyerRaw(fs, t));
    assert f.Held(user, NATIVE) <= f.Balance(user, NATIVE) && f.Held(user, asset) <= f.Balance(user, asset);
  }

  lemma SellerAffords(fs: FeeSchedule, m: Market, f: Funds, t: Trade, user: string, asset: string)
    requires SpotMarket(m) && ScheduleOk(fs) && TradeOk(t) && user == t.sellerId && Sane(f, user)
    ensures f.Balance(user, asset) + SellerGets(m, Execute(fs, m, f, t), asset) >= f.Held(user, asset) - Owed(fs, m, t, user, asset)
  {
    hide LastTier, At, Value, BuyerRaw, SellerRaw, ScheduleOk, Charge;
    RawBounds(fs, t);
    ChargeCases(fs, f, user, m.feeAsset, SellerRaw(fs, t));
    assert f.Held(user, NATIVE) <= f.Balance(user, NATIVE) && f.Held(user, asset) <= f.Balance(user, asset);
  }

  /** Who trades with himself gets back what he pays, less the two fees. */
  lemma BothAfford(fs: FeeSchedule, m: Market, f: Funds, t: Trade, user: string, asset: string)
    requires SpotMarket(m) && ScheduleOk(fs) && TradeOk(t) && user == t.buyerId == t.sellerId && Sane(f, user)
    requires user !in fs.payInNative || (VlxFree(m, f, user) && asset != NATIVE)
    ensures
      var e := Execute(fs, m, f, t);
      f.Balance(user, asset) + BuyerGets(m, e, asset) + SellerGets(m, e, asset) >= f.Held(user, asset) - Owed(fs, m, t, user, asset)
  {
    hide LastTier, At, Value, BuyerRaw, SellerRaw, ScheduleOk, Charge;
    RawBounds(fs, t);
    ChargeCases(fs, f, user, m.feeAsset, BuyerRaw(fs, t));
    ChargeCases(fs, f, user, m.feeAsset, SellerRaw(fs, t));
    ChargedInQuote(fs, f, user, m.feeAsset, BuyerRaw(fs, t));
    ChargedInQuote(fs, f, user, m.feeAsset, SellerRaw(fs, t));
    assert f.Held(user, asset) <= f.Balance(user, asset);
  }

  lemma ChargedInQuote(fs: FeeSchedule, f: Funds, user: string, feeAsset: string, raw: real)
    ensures user !in fs.payInNative ==> Charge(fs, f, user, feeAsset, raw) == (feeAsset, raw)
  {}

  /** What settling a trade does to a user, cut off at zero wherever the funds fall short. */
  lemma SettleAt(fs: FeeSchedule, m: Market, f: Funds, t: Trade, user: string, asset: string)
    requires SpotMarket(m) && ScheduleOk(fs) && TradeOk(t) && f.Held(user, asset) >= 0.0 && f.Balance(user, asset) >= 0.0
    ensures
      var e, after := Execute(fs, m, f, t), Settle(fs, m, f, t);
      var paid := if user == t.buyerId then Floor(f.Balance(user, asset) + BuyerGets(m, e, asset)) else f.Balance(user, asset);
      after.Held(user, asset) == Floor(f.Held(user, asset) - Owed(fs, m, t, user, asset)) &&
      after.Balance(user, asset) == if user == t.sellerId then Floor(paid + SellerGets(m, e, asset)) else paid
  {
    hide Execute, PayBuyer, PaySeller, ReleaseBoth, At, Value, BuyerRaw, ScheduleOk, BuyerGets, SellerGets, Owed, Funds.Held, Funds.Balance;
    var e := Execute(fs, m, f, t);
    FeesKnown(fs, m, f, t);
    var f1 := ReleaseBoth(m, f, e);
    ReleaseBothAt(fs, m, f, e, user, asset);
    PayBuyerAt(m, f1, e, user, asset);
    PaySellerAt(m, PayBuyer(m, f1, e), e, user, asset);
  }

  /** Whatever is traded, and however short the funds: a user's holds stay within the balances. */
  lemma SettleSane(fs: FeeSchedule, m: Market, f: Funds, t: Trade, user: string)
    requires SpotMarket(m) && ScheduleOk(fs) && TradeOk(t) && Sane(f, user) && (Single(fs, t, user) || VlxFree(m, f, user))
    ensures Sane(Settle(fs, m, f, t), user)
    ensures VlxFree(m, f, user) ==> VlxFree(m, Settle(fs, m, f, t), user)
  {
    hide Execute, Settle, At, Value, BuyerRaw, ScheduleOk, BuyerGets, SellerGets, Funds.Held, Funds.Balance, Owed;
    var e, after := Execute(fs, m, f, t), Settle(fs, m, f, t);
    forall asset ensures 0.0 <= after.Held(user, asset) <= after.Balance(user, asset) {
      assert 0.0 <= f.Held(user, asset) <= f.Balance(user, asset);
      SettleAt(fs, m, f, t, user, asset);
      OwedApart(fs, m, t, user, asset);
      if user == t.buyerId { BuyerAffords(fs, m, f, t, user, asset); }
      if user == t.sellerId { SellerAffords(fs, m, f, t, user, asset); }
      if user == t.buyerId == t.sellerId && (user !in fs.payInNative || asset != NATIVE) { BothAfford(fs, m, f, t, user, asset); }
    }
    assert 0.0 <= f.Held(user, NATIVE) <= f.Balance(user, NATIVE);
    SettleAt(fs, m, f, t, user, NATIVE);
    OwedElsewhere(fs, m, t, user, NATIVE);
  }

  lemma OwedApart(fs: FeeSchedule, m: Market, t: Trade, user: string, asset: string)
    requires ScheduleOk(fs) && TradeOk(t)
    ensures Owed(fs, m, t, user, asset) >= 0.0
    ensures user != t.buyerId && user != t.sellerId ==> Owed(fs, m, t, user, asset) == 0.0
  {
    hide ScheduleOk, BuyerRaw, SellerRaw, Value;
    RawBounds(fs, t);
  }

  lemma OwedElsewhere(fs: FeeSchedule, m: Market, t: Trade, user: string, asset: string)
    ensures asset != m.base && asset != m.quote ==> Owed(fs, m, t, user, asset) == 0.0
  {}

  /** When a user's holds cover a trade, settling it releases exactly what is owed and moves exactly
      what was traded and charged: no hold and no balance is cut off at zero. */
  lemma SettleExact(fs: FeeSchedule, m: Market, f: Funds, t: Trade, user: string, asset: string)
    requires SpotMarket(m) && ScheduleOk(fs) && TradeOk(t) && Sane(f, user) && Single(fs, t, user) && Covered(fs, m, f, t, user)
    ensures
      var after := Settle(fs, m, f, t);
      after.Held(user, asset) == f.Held(user, asset) - Owed(fs, m, t, user, asset) &&
      after.Balance(user, asset) == f.Balance(user, asset) + Received(m, Execute(fs, m, f, t), user, asset)
  {
    hide Execute, Settle, At, Value, BuyerRaw, ScheduleOk, BuyerGets, SellerGets, Funds.Held, Funds.Balance, Owed;
    assert Owed(fs, m, t, user, asset) <= f.Held(user, asset) <= f.Balance(user, asset);
    FeesKnown(fs, m, f, t);
    SettleAt(fs, m, f, t, user, asset);
    if user == t.buyerId { BuyerAffords(fs, m, f, t, user, asset); }
    if user == t.sellerId { SellerAffords(fs, m, f, t, user, asset); }
    if user == t.buyerId == t.sellerId { BothAfford(fs, m, f, t, user, asset); }
  }

  /** Who trades with himself and pays both fees in VLX is charged both in full exactly when the balance
      covers their sum; that it covers each of them is all that was asked. */
  lemma SelfTradeInNativeIff(fs: FeeSchedule, m: Market, f: Funds, t: Trade)
    requires SpotMarket(m) && m.base != NATIVE && m.quote != NATIVE && ScheduleOk(fs) && TradeOk(t) && t.buyerId == t.sellerId
    requires Sane(f, t.buyerId)
    requires var e := Execute(fs, m, f, t); e.buyerFeeAsset == NATIVE == e.sellerFeeAsset
    ensures
      var e, user := Execute(fs, m, f, t), t.buyerId;
      Settle(fs, m, f, t).Balance(user, NATIVE) == f.Balance(user, NATIVE) - e.buyerFee - e.sellerFee <==>
      e.buyerFee + e.sellerFee <= f.Balance(user, NATIVE)
  {
    hide Execute, Settle, At, Value, BuyerRaw, ScheduleOk, Funds.Held, Funds.Balance, Owed;
    var e, user := Execute(fs, m, f, t), t.buyerId;
    FeesKnown(fs, m, f, t);
    assert 0.0 <= f.Held(user, NATIVE) <= f.Balance(user, NATIVE);
    SettleAt(fs, m, f, t, user, NATIVE);
    BuyerAffords(fs, m, f, t, user, NATIVE);
    OwedElsewhere(fs, m, t, user, NATIVE);
  }

  /** A schedule and funds at which it does not: two fees of 0.75 VLX out of 1 VLX. */
  lemma SelfTradeUndercharged(fs: FeeSchedule, m: Market, f: Funds, t: Trade)
    requires SpotMarket(m) && m.base != NATIVE && m.quote != NATIVE
    requires fs == FeeSchedule(Rates(0.01, 0.01), [], map[], map[], {"ann"}, map[m.quote := 1.0, NATIVE := 1.0])
    requires f == Funds(map["ann" := map[NATIVE := 1.0]], map[]) && t == Trade(1, "ann", "ann", "b1", "s1", 100.0, 1.0)
    ensures
      var e := Execute(fs, m, f, t);
      e.buyerFeeAsset == NATIVE == e.sellerFeeAsset && e.buyerFee == 0.75 == e.sellerFee &&
      Settle(fs, m, f, t).Balance("ann", NATIVE) != f.Balance("ann", NATIVE) - e.buyerFee - e.sellerFee
  {
    hide Settle;
    assert RawFee(Value(t), 0.01) == 1.0;
    assert Discounted(fs, m.feeAsset, 1.0) == 0.75;
    assert f.Available("ann", NATIVE) == 1.0;
    SelfTradeInNativeIff(fs, m, f, t);
  }

  // ---------------------------------------------------------------------------
  // All trades of a submission
  // ---------------------------------------------------------------------------

  predicate TradesOk(trades: seq<Trade>) { forall k :: 0 <= k < |trades| ==> TradeOk(trades[k]) }

  predicate SingleAll(fs: FeeSchedule, trades: seq<Trade>, user: string) {
    forall k :: 0 <= k < |trades| ==> Single(fs, trades[k], user)
  }

  /** What a user receives over a list of trades, each charged on the funds it finds. */
  function ReceivedAll(fs: FeeSchedule, m: Market, f: Funds, trades: seq<Trade>, user: string, asset: string): real
    decreases |trades|
  {
    if trades == [] then 0.0
    else Received(m, Execute(fs, m, f, trades[0]), user, asset) +
         ReceivedAll(fs, m, Settle(fs, m, f, trades[0]), trades[1..], user, asset)
  }

  lemma {:induction false} OwedNonNegative(fs: FeeSchedule, m: Market, trades: seq<Trade>, user: string, asset: string)
    requires ScheduleOk(fs) && TradesOk(trades)
    ensures OwedAll(fs, m, trades, user, asset) >= 0.0
    decreases |trades|
  {
    hide ScheduleOk, Owed, TradeOk;
    if trades != [] {
      OwedApart(fs, m, trades[0], user, asset);
      OwedNonNegative(fs, m, trades[1..], user, asset);
    }
  }

  /** Over a list of trades a hold goes down by what they release, cut off at zero once. */
  lemma {:induction false} SettleAllHeld(fs: FeeSchedule, m: Market, f: Funds, trades: seq<Trade>, user: string, asset: string)
    requires SpotMarket(m) && ScheduleOk(fs) && TradesOk(trades) && f.Held(user, asset) >= 0.0 && f.Balance(user, asset) >= 0.0
    ensures SettleAll(fs, m, f, trades).Held(user, asset) == Floor(f.Held(user, asset) - OwedAll(fs, m, trades, user, asset))
    ensures SettleAll(fs, m, f, trades).Balance(user, asset) >= 0.0
    decreases |trades|
  {
    hide Settle, Owed, ScheduleOk, Execute, TradeOk, At;
    if trades != [] {
      SettleAt(fs, m, f, trades[0], user, asset);
      SettleAllHeld(fs, m, Settle(fs, m, f, trades[0]), trades[1..], user, asset);
      OwedNonNegative(fs, m, trades[1..], user, asset);
    }
  }

  lemma {:induction false} SettleAllSane(fs: FeeSchedule, m: Market, f: Funds, trades: seq<Trade>, user: string)
    requires SpotMarket(m) && ScheduleOk(fs) && TradesOk(trades) && Sane(f, user) && (SingleAll(fs, trades, user) || VlxFree(m, f, user))
    ensures Sane(SettleAll(fs, m, f, trades), user)
    ensures VlxFree(m, f, user) ==> VlxFree(m, SettleAll(fs, m, f, trades), user)
    decreases |trades|
  {
    hide Settle, ScheduleOk, TradeOk, Sane, VlxFree, Single;
    if trades != [] {
      SettleSane(fs, m, f, trades[0], user);
      SettleAllSane(fs, m, Settle(fs, m, f, trades[0]), trades[1..], user);
    }
  }

  /** When a user's holds cover a list of trades, settling them all is exact. */
  lemma {:induction false} SettleAllExact(fs: FeeSchedule, m: Market, f: Funds, trades: seq<Trade>, user: string, asset: string)
    requires SpotMarket(m) && ScheduleOk(fs) && TradesOk(trades) && Sane(f, user) && SingleAll(fs, trades, user)
    requires forall a :: OwedAll(fs, m, trades, user, a) <= f.Held(user, a)
    ensures
      var after := SettleAll(fs, m, f, trades);
      after.Held(user, asset) == f.Held(user, asset) - OwedAll(fs, m, trades, user, asset) &&
      after.Balance(user, asset) == f.Balance(user, asset) + ReceivedAll(fs, m, f, trades, user, asset)
    decreases |trades|
  {
    hide Settle, Owed, Received, ScheduleOk, Execute, TradeOk, At, Sane, Single;
    if trades != [] {
      var next := Settle(fs, m, f, trades[0]);
      forall a ensures Owed(fs, m, trades[0], user, a) <= f.Held(user, a) {
        assert OwedAll(fs, m, trades, user, a) <= f.Held(user, a);
        OwedNonNegative(fs, m, trades[1..], user, a);
      }
      SettleExact(fs, m, f, trades[0], user, asset);
      SettleSane(fs, m, f, trades[0], user);
      forall a ensures OwedAll(fs, m, trades[1..], user, a) <= next.Held(user, a) {
        assert OwedAll(fs, m, trades, user, a) <= f.Held(user, a);
        SettleExact(fs, m, f, trades[0], user, a);
      }
      SettleAllExact(fs, m, next, trades[1..], user, asset);
    }
  }

  /** Over the trades of a buyer the balance of the quote asset goes down by what was paid, cut off at
      zero once: he pays in full exactly when the balance suffices. */
  lemma {:induction false} SettleAllPays(fs: FeeSchedule, m: Market, f: Funds, trades: seq<Trade>, user: string)
    requires SpotMarket(m) && ScheduleOk(fs) && TradesOk(trades) && f.Balance(user, m.quote) >= 0.0 && f.Held(user, m.quote) >= 0.0
    requires forall k :: 0 <= k < |trades| ==> trades[k].buyerId == user != trades[k].sellerId
    ensures
      var paid := ReceivedAll(fs, m, f, trades, user, m.quote);
      paid <= 0.0 && SettleAll(fs, m, f, trades).Balance(user, m.quote) == Floor(f.Balance(user, m.quote) + paid)
    decreases |trades|
  {
    hide Settle, Owed, Received, ScheduleOk, Execute, TradeOk, At;
    if trades != [] {
      SettleAt(fs, m, f, trades[0], user, m.quote);
      PaysQuote(fs, m, f, trades[0], user);
      SettleAllPays(fs, m, Settle(fs, m, f, trades[0]), trades[1..], user);
    }
  }

  lemma PaysQuote(fs: FeeSchedule, m: Market, f: Funds, t: Trade, user: string)
    requires SpotMarket(m) && ScheduleOk(fs) && TradeOk(t) && user == t.buyerId != t.sellerId
    ensures
      var e := Execute(fs, m, f, t);
      Received(m, e, user, m.quote) == BuyerGets(m, e, m.quote) <= 0.0
  {
    hide Execute, Value, ScheduleOk;
    FeesKnown(fs, m, f, t);
  }

  /** What a trade between two users with sufficient funds, fees in the quote asset, moves: the quantity,
      the value, and each fee. */
  lemma PartiesMove(fs: FeeSchedule, m: Market, f: Funds, t: Trade)
    requires SpotMarket(m) && ScheduleOk(fs) && TradeOk(t) && t.buyerId != t.sellerId
    requires t.buyerId !in fs.payInNative && t.sellerId !in fs.payInNative && Sane(f, t.buyerId) && Sane(f, t.sellerId)
    requires
      var cost := t.qty * t.price * (1.0 + fs.RatesOf(t.buyerId).taker);
      f.Held(t.buyerId, m.quote) >= cost && f.Held(t.sellerId, m.base) >= t.qty
    ensures
      var after := Settle(fs, m, f, t);
      var value := t.qty * t.price;
      var paid, charged := value * fs.RatesOf(t.buyerId).taker, value * fs.RatesOf(t.sellerId).maker;
      after.Balance(t.buyerId, m.quote) == f.Balance(t.buyerId, m.quote) - value - paid &&
      after.Balance(t.buyerId, m.base) == f.Balance(t.buyerId, m.base) + t.qty &&
      after.Balance(t.sellerId, m.quote) == f.Balance(t.sellerId, m.quote) + value - charged &&
      after.Balance(t.sellerId, m.base) == f.Balance(t.sellerId, m.base) - t.qty &&
      after.Held(t.buyerId, m.quote) == f.Held(t.buyerId, m.quote) - value - paid &&
      after.Held(t.sellerId, m.base) == f.Held(t.sellerId, m.base) - t.qty
  {
    hide LastTier, Execute, Settle, At, ScheduleOk;
    var cost := t.qty * t.price * (1.0 + fs.RatesOf(t.buyerId).taker);
    assert cost == t.qty * t.price + t.qty * t.price * fs.RatesOf(t.buyerId).taker;
    RawBounds(fs, t);
    ExecuteFees(fs, m, f, t);
    ChargedInQuote(fs, f, t.buyerId, m.feeAsset, t.qty * t.price * fs.RatesOf(t.buyerId).taker);
    ChargedInQuote(fs, f, t.sellerId, m.feeAsset, t.qty * t.price * fs.RatesOf(t.sellerId).maker);
    assert f.Held(t.buyerId, m.quote) <= f.Balance(t.buyerId, m.quote) && f.Held(t.sellerId, m.base) <= f.Balance(t.sellerId, m.base);
    assert 0.0 <= f.Balance(t.buyerId, m.base) && 0.0 <= f.Balance(t.sellerId, m.quote);
    assert 0.0 <= f.Held(t.buyerId, m.base) && 0.0 <= f.Held(t.sellerId, m.quote);
    SettleAt(fs, m, f, t, t.buyerId, m.quote);
    SettleAt(fs, m, f, t, t.buyerId, m.base);
    SettleAt(fs, m, f, t, t.sellerId, m.quote);
    SettleAt(fs, m, f, t, t.sellerId, m.base);
  }
}
