/** Balances, holds and fees: the risk engine's in-memory sheets and the fee schedule. */
module Accounts {

  /** user -> asset -> amount; an absent entry means zero. */
  type Sheet = map<string, map<string, real>>

  function At(m: Sheet, user: string, asset: string): real {
    if user in m && asset in m[user] then m[user][asset] else 0.0
  }

  function Put(m: Sheet, user: string, asset: string, v: real): (r: Sheet)
    ensures forall u, a :: At(r, u, a) == if u == user && a == asset then v else At(m, u, a)
    ensures r.Keys == m.Keys + {user}
  {
    m[user := (if user in m then m[user] else map[])[asset := v]]
  }

  function Floor(v: real): real { if v < 0.0 then 0.0 else v }

  /** What the risk engine knows about money. */
  datatype Funds = Funds(balances: Sheet, holds: Sheet)
  {
    function Balance(user: string, asset: string): real { At(balances, user, asset) }

    function Held(user: string, asset: string): real { At(holds, user, asset) }

    function Available(user: string, asset: string): real {
      Floor(Balance(user, asset) - Held(user, asset))
    }

    function Deposit(user: string, asset: string, amount: real): Funds {
      this.(balances := Put(balances, user, asset, Balance(user, asset) + amount))
    }

    function Hold(user: string, asset: string, amount: real): Funds {
      this.(holds := Put(holds, user, asset, Held(user, asset) + amount))
    }

    /** A release never takes a hold below zero, and does nothing for a user without any hold. */
    function Release(user: string, asset: string, amount: real): Funds {
      if user in holds then this.(holds := Put(holds, user, asset, Floor(Held(user, asset) - amount)))
      else this
    }

    /** An adjustment never takes a balance below zero. */
    function Adjust(user: string, asset: string, change: real): Funds {
      this.(balances := Put(balances, user, asset, Floor(Balance(user, asset) + change)))
    }
  }

  /** What each movement does: one balance or one hold moves, by exactly the amount unless that would take it
      below zero, and everything else stays; a release does nothing for a user without any hold. */
  lemma FundsMove(f: Funds, user: string, asset: string, x: real, u: string, a: string)
    ensures f.Deposit(user, asset, x).Balance(u, a) == f.Balance(u, a) + if u == user && a == asset then x else 0.0
    ensures f.Hold(user, asset, x).Held(u, a) == f.Held(u, a) + if u == user && a == asset then x else 0.0
    ensures
      var left := f.Balance(u, a) + x;
      f.Adjust(user, asset, x).Balance(u, a) == if u != user || a != asset then f.Balance(u, a) else if left < 0.0 then 0.0 else left
    ensures
      var left := f.Held(u, a) - x;
      f.Release(user, asset, x).Held(u, a) ==
        if u != user || a != asset || u !in f.holds then f.Held(u, a) else if left < 0.0 then 0.0 else left
    ensures f.Deposit(user, asset, x).holds == f.Adjust(user, asset, x).holds == f.holds
    ensures f.Hold(user, asset, x).balances == f.Release(user, asset, x).balances == f.balances
    ensures f.Release(user, asset, x).holds.Keys == f.holds.Keys
  {}

  // ---------------------------------------------------------------------------
  // Fees
  // ---------------------------------------------------------------------------

  datatype Rates = Rates(maker: real, taker: real)

  datatype Tier = Tier(minVolume: real, rates: Rates)

  datatype FeeSchedule = FeeSchedule(
    defaults: Rates, tiers: seq<Tier>, volumes: map<string, real>, overrides: map<string, real>,
    payInNative: set<string>, prices: map<string, real>)
  {
    function Volume(user: string): real { if user in volumes then volumes[user] else 0.0 }

    function RatesOf(user: string): Rates {
      if user in overrides then Rates(overrides[user], overrides[user])
      else LastTier(tiers, Volume(user), defaults)
    }
  }

  /** The rates of the last tier whose volume the user reaches. */
  function LastTier(tiers: seq<Tier>, volume: real, rates: Rates): Rates
    decreases |tiers|
  {
    if tiers == [] then rates
    else LastTier(tiers[1..], volume, if volume >= tiers[0].minVolume then tiers[0].rates else rates)
  }

  /** Without a reached tier the given rates stand; otherwise the reached tier that is listed last wins. */
  lemma {:induction false} LastTierWins(tiers: seq<Tier>, volume: real, rates: Rates, k: nat)
    requires k <= |tiers| && forall i :: k <= i < |tiers| ==> volume < tiers[i].minVolume
    requires k > 0 ==> volume >= tiers[k - 1].minVolume
    ensures LastTier(tiers, volume, rates) == if k == 0 then rates else tiers[k - 1].rates
    decreases |tiers|
  {
    if tiers != [] {
      assert forall i :: 1 <= i < |tiers| ==> tiers[i] == tiers[1..][i - 1];
      LastTierWins(tiers[1..], volume, if volume >= tiers[0].minVolume then tiers[0].rates else rates, if k == 0 then 0 else k - 1);
    }
  }

  /** Maker and taker rates of a user: a personal override, else the highest tier reached. */
  method GetFeeRates(fs: FeeSchedule, user: string) returns (maker: real, taker: real)
    ensures Rates(maker, taker) == fs.RatesOf(user)
  {
    if user in fs.overrides {
      return fs.overrides[user], fs.overrides[user];
    }
    maker, taker := fs.defaults.maker, fs.defaults.taker;
    assert fs.tiers[0..] == fs.tiers;
    for i := 0 to |fs.tiers|
      invariant LastTier(fs.tiers, fs.Volume(user), fs.defaults) ==
        LastTier(fs.tiers[i..], fs.Volume(user), Rates(maker, taker))
    {
      assert fs.tiers[i..][1..] == fs.tiers[i + 1..];
      if fs.Volume(user) >= fs.tiers[i].minVolume {
        maker, taker := fs.tiers[i].rates.maker, fs.tiers[i].rates.taker;
      }
    }
  }

  /** A personal override is both rates; without one it is the rates of the last tier that the volume
      reaches, a volume not recorded being zero, and without such a tier the defaults. */
  lemma RatesAre(fs: FeeSchedule, user: string, k: nat)
    requires
      var volume := if user in fs.volumes then fs.volumes[user] else 0.0;
      k <= |fs.tiers| && (k > 0 ==> volume >= fs.tiers[k - 1].minVolume) &&
      forall i :: k <= i < |fs.tiers| ==> volume < fs.tiers[i].minVolume
    ensures user in fs.overrides ==> fs.RatesOf(user).maker == fs.overrides[user] && fs.RatesOf(user).taker == fs.overrides[user]
    ensures user !in fs.overrides ==> fs.RatesOf(user) == if k == 0 then fs.defaults else fs.tiers[k - 1].rates
  {
    LastTierWins(fs.tiers, fs.Volume(user), fs.defaults, k);
  }

  predicate RatesOk(r: Rates) { 0.0 <= r.maker <= 1.0 && 0.0 <= r.taker }

  predicate ScheduleOk(fs: FeeSchedule) {
    RatesOk(fs.defaults) && (forall i :: 0 <= i < |fs.tiers| ==> RatesOk(fs.tiers[i].rates)) &&
    forall u :: u in fs.overrides ==> 0.0 <= fs.overrides[u] <= 1.0
  }

  lemma {:induction false} LastTierOk(tiers: seq<Tier>, volume: real, rates: Rates)
    requires RatesOk(rates) && forall i :: 0 <= i < |tiers| ==> RatesOk(tiers[i].rates)
    ensures RatesOk(LastTier(tiers, volume, rates))
    decreases |tiers|
  {
    if tiers != [] {
      assert RatesOk(tiers[0].rates);
      LastTierOk(tiers[1..], volume, if volume >= tiers[0].minVolume then tiers[0].rates else rates);
    }
  }

  /** A schedule with sensible entries gives sensible rates to everyone. */
  lemma RatesOfOk(fs: FeeSchedule, user: string)
    requires ScheduleOk(fs)
    ensures RatesOk(fs.RatesOf(user))
  {
    if user !in fs.overrides { LastTierOk(fs.tiers, fs.Volume(user), fs.defaults); }
  }

  const NATIVE := "VLX"

  function PositiveOr(prices: map<string, real>, asset: string, default_: real): real {
    if asset in prices && prices[asset] > 0.0 then prices[asset] else default_
  }

  /** The native-token equivalent of a raw fee, at the 25% discount. */
  function Discounted(fs: FeeSchedule, feeAsset: string, raw: real): real {
    raw * PositiveOr(fs.prices, feeAsset, 1.0) / PositiveOr(fs.prices, NATIVE, 2.5) * 0.75
  }

  /** Which asset a user pays a fee in, and how much of it. */
  function Charge(fs: FeeSchedule, funds: Funds, user: string, feeAsset: string, raw: real): (string, real) {
    if user in fs.payInNative && funds.Available(user, NATIVE) >= Discounted(fs, feeAsset, raw)
    then (NATIVE, Discounted(fs, feeAsset, raw))
    else (feeAsset, raw)
  }

  lemma Quotient(x: real, n: real, c: real, free: real)
    requires n > 0.0
    ensures x / n * c * n == x * c
    ensures free >= x / n * c <==> free * n >= x * c
  {
    assert x / n * n == x;
    assert x / n * c * n == x / n * n * c;
    var gap := free - x / n * c;
    assert gap * n == free * n - x * c;
    if gap >= 0.0 { Product(gap, n); } else { Product(-gap, n); assert -gap * n != 0.0; }
  }

  lemma Product(x: real, y: real)
    requires x >= 0.0 && y > 0.0
    ensures x * y >= 0.0 && (x > 0.0 ==> x * y > 0.0)
  {}

  /** A user who prefers VLX pays in it exactly when his free VLX is worth three quarters of the raw fee, and
      then pays VLX worth exactly that, at the listed prices; a price that is missing or not positive
      counts as 2.5 for VLX and 1.0 for the asset of the fee.  Otherwise he pays the raw fee. */
  lemma ChargeIff(fs: FeeSchedule, funds: Funds, user: string, feeAsset: string, raw: real)
    ensures
      var vlx := if "VLX" in fs.prices && fs.prices["VLX"] > 0.0 then fs.prices["VLX"] else 2.5;
      var price := if feeAsset in fs.prices && fs.prices[feeAsset] > 0.0 then fs.prices[feeAsset] else 1.0;
      var left := funds.Balance(user, "VLX") - funds.Held(user, "VLX");
      var free := if left < 0.0 then 0.0 else left;
      var (asset, fee) := Charge(fs, funds, user, feeAsset, raw);
      if user in fs.payInNative && free * vlx >= raw * price * 0.75 then asset == "VLX" && fee * vlx == raw * price * 0.75
      else asset == feeAsset && fee == raw
  {
    hide Discounted, PositiveOr, At;
    DiscountedWorth(fs, feeAsset, raw, funds.Available(user, "VLX"));
  }

  lemma DiscountedWorth(fs: FeeSchedule, feeAsset: string, raw: real, free: real)
    ensures
      var vlx := if "VLX" in fs.prices && fs.prices["VLX"] > 0.0 then fs.prices["VLX"] else 2.5;
      var price := if feeAsset in fs.prices && fs.prices[feeAsset] > 0.0 then fs.prices[feeAsset] else 1.0;
      Discounted(fs, feeAsset, raw) * vlx == raw * price * 0.75 &&
      (free >= Discounted(fs, feeAsset, raw) <==> free * vlx >= raw * price * 0.75)
  {
    hide Discounted, PositiveOr;
    var vlx, price := PositiveOr(fs.prices, NATIVE, 2.5), PositiveOr(fs.prices, feeAsset, 1.0);
    PricesUsed(fs, feeAsset, raw);
    Quotient(raw * price, vlx, 0.75, free);
  }

  lemma PricesUsed(fs: FeeSchedule, feeAsset: string, raw: real)
    ensures
      var vlx, price := PositiveOr(fs.prices, NATIVE, 2.5), PositiveOr(fs.prices, feeAsset, 1.0);
      vlx > 0.0 && Discounted(fs, feeAsset, raw) == raw * price / vlx * 0.75 &&
      vlx == (if "VLX" in fs.prices && fs.prices["VLX"] > 0.0 then fs.prices["VLX"] else 2.5) &&
      price == if feeAsset in fs.prices && fs.prices[feeAsset] > 0.0 then fs.prices[feeAsset] else 1.0
  {}

  /** Three VLX for a fee of ten in an asset at par, at the default price of VLX. */
  lemma ChargeThree(fs: FeeSchedule, funds: Funds, user: string, feeAsset: string)
    requires fs.prices == map[] && user in fs.payInNative && funds.Balance(user, "VLX") >= 3.0 && funds.Held(user, "VLX") == 0.0
    ensures Charge(fs, funds, user, feeAsset, 10.0) == ("VLX", 3.0)
  {
    ChargeIff(fs, funds, user, feeAsset, 10.0);
  }
}
