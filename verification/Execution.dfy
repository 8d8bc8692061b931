/** Executing trades: releasing holds, moving balances and charging fees. */
module Execution {
  import opened Book
  import opened Accounts

  /** A market's assets.  `feeAsset` is the quote part of its symbol. */
  datatype Market = Market(symbol: string, base: string, quote: string, feeAsset: string, futures: bool)

  datatype Executed = Executed(
    trade: Trade, buyerFee: real, sellerFee: real, buyerRawFee: real, sellerRawFee: real,
    buyerFeeAsset: string, sellerFeeAsset: string)

  function Value(t: Trade): real { t.qty * t.price }

  function RawFee(value: real, rate: real): real { value * rate }

  function BuyerRaw(fs: FeeSchedule, t: Trade): real { RawFee(Value(t), fs.RatesOf(t.buyerId).taker) }

  function SellerRaw(fs: FeeSchedule, t: Trade): real { RawFee(Value(t), fs.RatesOf(t.sellerId).maker) }

  function Execute(fs: FeeSchedule, m: Market, funds: Funds, t: Trade): Executed {
    var (ba, bf) := Charge(fs, funds, t.buyerId, m.feeAsset, BuyerRaw(fs, t));
    var (sa, sf) := Charge(fs, funds, t.sellerId, m.feeAsset, SellerRaw(fs, t));
    Executed(t, bf, sf, BuyerRaw(fs, t), SellerRaw(fs, t), ba, sa)
  }

  /** Each party is charged on the value of the trade, the buyer at his taker rate and the seller at his
      maker rate. */
  lemma ExecuteFees(fs: FeeSchedule, m: Market, funds: Funds, t: Trade)
    ensures
      var e := Execute(fs, m, funds, t);
      var bought, sold := t.qty * t.price * fs.RatesOf(t.buyerId).taker, t.qty * t.price * fs.RatesOf(t.sellerId).maker;
      e.trade == t && e.buyerRawFee == bought && e.sellerRawFee == sold &&
      (e.buyerFeeAsset, e.buyerFee) == Charge(fs, funds, t.buyerId, m.feeAsset, bought) &&
      (e.sellerFeeAsset, e.sellerFee) == Charge(fs, funds, t.sellerId, m.feeAsset, sold)
  {
    hide Charge, LastTier;
  }

  /** The buyer's side of the movement: quote out, fee out, base in. */
  function PayBuyer(m: Market, funds: Funds, e: Executed): Funds {
    var t := e.trade;
    var f := funds.Adjust(t.buyerId, m.base, t.qty);
    if e.buyerFeeAsset == m.quote then f.Adjust(t.buyerId, m.quote, -(Value(t) + e.buyerFee))
    else f.Adjust(t.buyerId, m.quote, -(Value(t))).Adjust(t.buyerId, e.buyerFeeAsset, -e.buyerFee)
  }

  /** The seller's side: base out, quote in, fee out. */
  function PaySeller(m: Market, funds: Funds, e: Executed): Funds {
    var t := e.trade;
    var f := funds.Adjust(t.sellerId, m.base, -t.qty);
    if e.sellerFeeAsset == m.quote then f.Adjust(t.sellerId, m.quote, Value(t) - e.sellerFee)
    else f.Adjust(t.sellerId, m.quote, Value(t)).Adjust(t.sellerId, e.sellerFeeAsset, -e.sellerFee)
  }

  function ReleaseBoth(m: Market, funds: Funds, e: Executed): Funds {
    var t := e.trade;
    funds.Release(t.buyerId, m.quote, Value(t) + e.buyerRawFee).Release(t.sellerId, m.base, t.qty)
  }

  function Settle(fs: FeeSchedule, m: Market, funds: Funds, t: Trade): Funds {
    var e := Execute(fs, m, funds, t);
    PaySeller(m, PayBuyer(m, ReleaseBoth(m, funds, e), e), e)
  }

  function SettleAll(fs: FeeSchedule, m: Market, funds: Funds, trades: seq<Trade>): Funds
    decreases |trades|
  {
    if trades == [] then funds else SettleAll(fs, m, Settle(fs, m, funds, trades[0]), trades[1..])
  }

  function ExecuteAll(fs: FeeSchedule, m: Market, funds: Funds, trades: seq<Trade>): seq<Executed>
    decreases |trades|
  {
    if trades == [] then []
    else [Execute(fs, m, funds, trades[0])] + ExecuteAll(fs, m, Settle(fs, m, funds, trades[0]), trades[1..])
  }

  /** The record has one execution for each trade, charged from the funds as the trades before it left them. */
  lemma {:induction false} ExecutedInTurn(fs: FeeSchedule, m: Market, funds: Funds, trades: seq<Trade>, k: nat)
    requires k < |trades|
    ensures |ExecuteAll(fs, m, funds, trades)| == |trades|
    ensures ExecuteAll(fs, m, funds, trades)[k] == Execute(fs, m, SettleAll(fs, m, funds, trades[..k]), trades[k])
    decreases |trades|
  {
    hide Execute, Settle;
    var next := Settle(fs, m, funds, trades[0]);
    if k == 0 {
      if |trades| > 1 { ExecutedInTurn(fs, m, next, trades[1..], 0); }
    } else {
      ExecutedInTurn(fs, m, next, trades[1..], k - 1);
      assert trades[..k][1..] == trades[1..][..k - 1];
    }
  }

  class RiskEngine {
    var userBalances: Sheet
    var activeHolds: Sheet
    var insuranceFund: map<string, real>
    var userLeverages: Sheet

    constructor ()
      ensures FundsOf() == Funds(map[], map[]) && insuranceFund == map[] && userLeverages == map[]
    {
      userBalances, activeHolds, insuranceFund, userLeverages := map[], map[], map[], map[];
    }

    function FundsOf(): Funds
      reads this`userBalances, this`activeHolds
    {
      Funds(userBalances, activeHolds)
    }

    method DepositAsset(user: string, asset: string, amount: real)
      modifies this`userBalances
      ensures FundsOf() == old(FundsOf()).Deposit(user, asset, amount)
    {
      userBalances := Put(userBalances, user, asset, At(userBalances, user, asset) + amount);
    }

    method GetAvailableBalance(user: string, asset: string) returns (available: real)
      ensures available == FundsOf().Available(user, asset)
    {
      available := At(userBalances, user, asset) - At(activeHolds, user, asset);
      if available < 0.0 {
        available := 0.0;
      }
    }

    method ReleaseHold(user: string, asset: string, amount: real)
      modifies this`activeHolds
      ensures FundsOf() == old(FundsOf()).Release(user, asset, amount)
    {
      if user in activeHolds {
        var held := At(activeHolds, user, asset) - amount;
        activeHolds := Put(activeHolds, user, asset, if held < 0.0 then 0.0 else held);
      }
    }

    method UpdateBalance(user: string, asset: string, change: real)
      modifies this`userBalances
      ensures FundsOf() == old(FundsOf()).Adjust(user, asset, change)
    {
      var balance := At(userBalances, user, asset) + change;
      userBalances := Put(userBalances, user, asset, if balance < 0.0 then 0.0 else balance);
    }

    /** The reservation step of the pre-trade check, made under one lock: the hold is taken only
        when the free balance suffices. */
    method TryHold(user: string, asset: string, amount: real) returns (ok: bool)
      modifies this`activeHolds
      ensures ok <==> old(FundsOf()).Balance(user, asset) - old(FundsOf()).Held(user, asset) >= amount
      ensures FundsOf() == if ok then old(FundsOf()).Hold(user, asset, amount) else old(FundsOf())
    {
      ok := At(userBalances, user, asset) - At(activeHolds, user, asset) >= amount;
      if ok {
        activeHolds := Put(activeHolds, user, asset, At(activeHolds, user, asset) + amount);
      }
    }

    function Fund(asset: string): real
      reads this`insuranceFund
    {
      if asset in insuranceFund then insuranceFund[asset] else 0.0
    }

    method AddInsuranceFundReserves(asset: string, amount: real)
      modifies this`insuranceFund
      ensures Fund(asset) == old(Fund(asset)) + amount
      ensures forall other :: other != asset ==> Fund(other) == old(Fund(other))
    {
      insuranceFund := insuranceFund[asset := Fund(asset) + amount];
    }
  }

  class ExecutionEngine {
    const fees: FeeSchedule
    const risk: RiskEngine
    var executions: seq<Executed>

    constructor (fees: FeeSchedule, risk: RiskEngine)
      ensures this.fees == fees && this.risk == risk && executions == []
    {
      this.fees, this.risk := fees, risk;
      executions := [];
    }

    /** Which asset a user pays a fee in, read from the live balances. */
    method CalculateFeeForUser(user: string, feeAsset: string, raw: real) returns (asset: string, fee: real)
      ensures (asset, fee) == Charge(fees, risk.FundsOf(), user, feeAsset, raw)
    {
      asset, fee := feeAsset, raw;
      if user in fees.payInNative {
        var nativePrice := 2.5;
        if NATIVE in fees.prices && fees.prices[NATIVE] > 0.0 { nativePrice := fees.prices[NATIVE]; }
        var assetPrice := 1.0;
        if feeAsset in fees.prices && fees.prices[feeAsset] > 0.0 { assetPrice := fees.prices[feeAsset]; }
        var discounted := raw * assetPrice / nativePrice * 0.75;
        PricesUsed(fees, feeAsset, raw);
        var available := risk.GetAvailableBalance(user, NATIVE);
        if available >= discounted {
          asset, fee := NATIVE, discounted;
        }
      }
    }

    method MoveBuyer(m: Market, e: Executed)
      modifies risk`userBalances
      ensures risk.FundsOf() == PayBuyer(m, old(risk.FundsOf()), e)
    {
      hide Put, At, Value, Funds.Adjust;
      var t := e.trade;
      risk.UpdateBalance(t.buyerId, m.base, t.qty);
      if e.buyerFeeAsset == m.quote {
        risk.UpdateBalance(t.buyerId, m.quote, -(Value(t) + e.buyerFee));
      } else {
        risk.UpdateBalance(t.buyerId, m.quote, -(Value(t)));
        risk.UpdateBalance(t.buyerId, e.buyerFeeAsset, -e.buyerFee);
      }
    }

    method MoveSeller(m: Market, e: Executed)
      modifies risk`userBalances
      ensures risk.FundsOf() == PaySeller(m, old(risk.FundsOf()), e)
    {
      hide Put, At, Value, Funds.Adjust;
      var t := e.trade;
      risk.UpdateBalance(t.sellerId, m.base, -t.qty);
      if e.sellerFeeAsset == m.quote {
        risk.UpdateBalance(t.sellerId, m.quote, Value(t) - e.sellerFee);
      } else {
        risk.UpdateBalance(t.sellerId, m.quote, Value(t));
        risk.UpdateBalance(t.sellerId, e.sellerFeeAsset, -e.sellerFee);
      }
    }

    /** One trade: fees from the balances as they are, then the holds, then the balances. */
    method ProcessTrade(t: Trade, m: Market) returns (e: Executed)
      modifies risk`userBalances, risk`activeHolds
      ensures e == Execute(fees, m, old(risk.FundsOf()), t)
      ensures risk.FundsOf() == Settle(fees, m, old(risk.FundsOf()), t)
    {
      hide Charge, Value, RawFee, PayBuyer, PaySeller, Put, At, LastTier;
      var _, taker := GetFeeRates(fees, t.buyerId);
      var maker, _ := GetFeeRates(fees, t.sellerId);
      var buyerRaw, sellerRaw := RawFee(Value(t), taker), RawFee(Value(t), maker);
      var ba, bf := CalculateFeeForUser(t.buyerId, m.feeAsset, buyerRaw);
      var sa, sf := CalculateFeeForUser(t.sellerId, m.feeAsset, sellerRaw);
      e := Executed(t, bf, sf, buyerRaw, sellerRaw, ba, sa);
      risk.ReleaseHold(t.buyerId, m.quote, Value(t) + buyerRaw);
      risk.ReleaseHold(t.sellerId, m.base, t.qty);
      MoveBuyer(m, e);
      MoveSeller(m, e);
    }

    method ProcessTrades(trades: seq<Trade>, m: Market) returns (results: seq<Executed>)
      modifies this`executions, risk`userBalances, risk`activeHolds
      ensures results == ExecuteAll(fees, m, old(risk.FundsOf()), trades)
      ensures risk.FundsOf() == SettleAll(fees, m, old(risk.FundsOf()), trades)
      ensures executions == old(executions) + results
    {
      hide Execute, Settle;
      results := [];
      ghost var start := risk.FundsOf();
      assert trades[0..] == trades;
      for i := 0 to |trades|
        invariant ExecuteAll(fees, m, start, trades) == results + ExecuteAll(fees, m, risk.FundsOf(), trades[i..])
        invariant SettleAll(fees, m, start, trades) == SettleAll(fees, m, risk.FundsOf(), trades[i..])
        invariant executions == old(executions) + results
      {
        assert trades[i..][0] == trades[i] && trades[i..][1..] == trades[i + 1..];
        var e := ProcessTrade(trades[i], m);
        executions := executions + [e];
        results := results + [e];
      }
    }
  }
}
