/** The order router on values: one order or cancel request from submission to the last bookkeeping
    step, joining the register of orders, the holds, the book, the trades and the insurance fund. */
module Desk {
  import opened Book
  import opened Accounts
  import opened Execution
  import opened OmsState

  const LIQUIDATOR := "LIQUIDATION_ENGINE"
  const EXTERNAL := "EXT_LIQUIDITY_BINANCE"

  datatype Desk = Desk(
    book: BookView, funds: Funds, orders: Register, fund: real, leverages: Sheet)

  /** How far the database lets a new order get: its insert fails, the update for its first move fails, or
      neither. */
  datatype Entry = Unsaved | Unmoved | Entered

  /** Answers of the parts not modelled: the database, the trading rules, the risk screens, and the
      external book. */
  datatype Answers = Answers(entry: Entry, rulesOk: bool, admitted: bool, external: seq<ExtLevel>)

  /** A level of the external book; no levels when there is no bridge or it fails. */
  datatype ExtLevel = ExtLevel(price: real, qty: real)

  function LegacyOf(o: OmsOrder): OrderView {
    OrderView(o.id, o.user, o.side, o.otype, o.price, o.qty, o.filled, New, o.tif, o.postOnly)
  }

  predicate IsStop(t: OrderType) { t.Stop? || t.StopLimit? || t.TakeProfit? || t.TakeProfitLimit? }

  function TriggerPrice(o: OmsOrder): real { if o.stopPrice == 0.0 then o.price else o.stopPrice }

  // ---------------------------------------------------------------------------
  // Reservation
  // ---------------------------------------------------------------------------

  function FeeRate(fs: FeeSchedule, o: OmsOrder): real {
    if o.postOnly then fs.RatesOf(o.user).maker else fs.RatesOf(o.user).taker
  }

  function LeverageOf(leverages: Sheet, user: string, m: Market): (r: real)
    ensures r > 0.0
  {
    var lev := At(leverages, user, m.symbol);
    if lev <= 0.0 then 20.0 else lev
  }

  function CostOf(qty: real, price: real, rate: real): real { qty * price * (1.0 + rate) }

  function MarginOf(qty: real, price: real, leverage: real): real
    requires leverage > 0.0
  {
    qty * price / leverage
  }

  /** The asset and the amount an order must have available. */
  function Required(fs: FeeSchedule, m: Market, leverages: Sheet, o: OmsOrder): (string, real) {
    if m.futures then (m.quote, MarginOf(o.qty, o.price, LeverageOf(leverages, o.user, m)))
    else if o.side.Buy? then (m.quote, CostOf(o.qty, o.price, FeeRate(fs, o)))
    else (m.base, o.qty)
  }

  predicate CanReserve(fs: FeeSchedule, m: Market, d: Desk, o: OmsOrder) {
    var (asset, amount) := Required(fs, m, d.leverages, o);
    d.funds.Balance(o.user, asset) - d.funds.Held(o.user, asset) >= amount
  }

  function Reserve(fs: FeeSchedule, m: Market, d: Desk, o: OmsOrder): Funds {
    if o.user == LIQUIDATOR then d.funds
    else
      var (asset, amount) := Required(fs, m, d.leverages, o);
      d.funds.Hold(o.user, asset, amount)
  }

  // ---------------------------------------------------------------------------
  // External liquidity
  // ---------------------------------------------------------------------------

  function ExtTrade(t: OrderView, l: ExtLevel, amount: real): Trade {
    if t.side.Buy?
    then Trade(0, t.user, EXTERNAL, t.id, "ext_sell_order_binance", l.price, amount)
    else Trade(0, EXTERNAL, t.user, "ext_buy_order_binance", t.id, l.price, amount)
  }

  datatype ExtOutcome = ExtOutcome(order: OrderView, trades: seq<Trade>)

  function ExtSweep(t: OrderView, levels: seq<ExtLevel>): ExtOutcome
    decreases |levels|
  {
    if levels == [] || t.Open() <= 0.0 || !Crosses(t, levels[0].price) then ExtOutcome(t, [])
    else
      var amount := Min(t.Open(), levels[0].qty);
      if amount <= 0.0 then ExtSweep(t, levels[1..])
      else
        var rest := ExtSweep(t.(filled := t.filled + amount,
                                status := if t.filled + amount >= t.qty then Filled else PartiallyFilled),
                             levels[1..]);
        rest.(trades := [ExtTrade(t, levels[0], amount)] + rest.trades)
  }

  predicate GoesOut(t: OrderView, a: Answers) {
    t.filled < t.qty && !t.status.Cancelled? && !t.status.Rejected? && a.external != []
  }

  /** Local match first, then the external levels for what is still open. */
  function MatchAll(b: BookView, o: OrderView, a: Answers): Matched {
    var m := Match(b, o);
    if !GoesOut(m.order, a) then m
    else
      var x := ExtSweep(m.order, a.external);
      var b1 := Book.Cancel(m.book, o.id).0;
      Matched(if x.order.filled < x.order.qty && x.order.otype.Limit? then Rest(b1, x.order) else b1,
              x.order, m.trades + x.trades)
  }

  // ---------------------------------------------------------------------------
  // After the trades
  // ---------------------------------------------------------------------------

  function Gain(edge: real, qty: real): real { edge * qty }

  /** What a trade of the liquidation engine brings to the insurance fund. */
  function Surplus(orders: Register, t: Trade): real {
    var id := if t.sellerId == LIQUIDATOR then t.sellOrderId else t.buyOrderId;
    if (t.buyerId != LIQUIDATOR && t.sellerId != LIQUIDATOR) || id !in orders then 0.0
    else if t.sellerId == LIQUIDATOR then Gain(t.price - orders[id].price, t.qty)
    else Gain(orders[id].price - t.price, t.qty)
  }

  function SurplusAll(orders: Register, trades: seq<Trade>): real {
    if trades == [] then 0.0 else Surplus(orders, trades[0]) + SurplusAll(orders, trades[1..])
  }

  /** The taker's record after its trades. */
  function SyncTaker(orders: Register, id: string, o: OrderView): Register
    requires id in orders
  {
    var r := orders[id := orders[id].(filled := o.filled)];
    if o.status.Filled? then Move(r, id, FullyFilled)
    else if o.status.PartiallyFilled? then Move(r, id, PartFilled)
    else r
  }

  function MakerId(side: Side, t: Trade): string { if side.Sell? then t.buyOrderId else t.sellOrderId }

  function SyncMaker(orders: Register, side: Side, t: Trade): Register {
    var id := MakerId(side, t);
    if id !in orders then orders
    else
      var r := orders[id].(filled := orders[id].filled + t.qty);
      Move(orders[id := r], id, if r.filled >= r.qty then FullyFilled else PartFilled)
  }

  function SyncMakers(orders: Register, side: Side, trades: seq<Trade>): Register
    decreases |trades|
  {
    if trades == [] then orders else SyncMakers(SyncMaker(orders, side, trades[0]), side, trades[1..])
  }

  // ---------------------------------------------------------------------------
  // Requests
  // ---------------------------------------------------------------------------

  function Admit(d: Desk, o: OmsOrder, stage: Stage): Desk {
    d.(orders := d.orders[o.id := o.(stage := stage)])
  }

  /** Does a submitted order get as far as the book?  The liquidation engine's own orders are not
      screened for risk. */
  predicate Accepts(fs: FeeSchedule, m: Market, d: Desk, o: OmsOrder, a: Answers) {
    a.entry.Entered? && a.rulesOk && (o.user == LIQUIDATOR || (a.admitted && CanReserve(fs, m, d, o)))
  }

  /** Where an order stops that is not accepted. */
  function StageReached(a: Answers): Stage {
    match a.entry case Unsaved => Created case Unmoved => PendingValidation case Entered => Declined
  }

  /** One submitted order. */
  function Process(fs: FeeSchedule, m: Market, d: Desk, o: OmsOrder, a: Answers): Desk {
    if !Accepts(fs, m, d, o, a) then Admit(d, o, StageReached(a))
    else
      var d1 := Admit(d, o, Queued).(funds := Reserve(fs, m, d, o));
      if IsStop(o.otype) then d1.(book := AddStop(d.book, LegacyOf(o).(price := TriggerPrice(o))))
      else Clear(fs, m, d1, o, a)
  }

  /** Matching a queued order and booking its trades. */
  function Clear(fs: FeeSchedule, m: Market, d: Desk, o: OmsOrder, a: Answers): Desk
    requires o.id in d.orders
  {
    var local := Match(d.book, LegacyOf(o));
    var all := MatchAll(d.book, LegacyOf(o), a);
    if all.trades == [] then d.(book := all.book)
    else
      Desk(all.book, SettleAll(fs, m, d.funds, all.trades),
           SyncMakers(SyncTaker(d.orders, o.id, all.order), o.side, local.trades),
           d.fund + SurplusAll(d.orders, all.trades), d.leverages)
  }

  /** Cancelling releases what is reserved for the unfilled part, in the two assets named here. */
  function ReleaseOpen(fs: FeeSchedule, funds: Funds, o: OmsOrder): Funds {
    if o.qty - o.filled <= 0.0 then funds
    else if o.side.Buy? then funds.Release(o.user, "USDT", CostOf(o.qty - o.filled, o.price, FeeRate(fs, o)))
    else funds.Release(o.user, "BTC", o.qty - o.filled)
  }

  /** One cancel request.  When the database does not store the new stage, the order is off the book
      and its stage has moved, but its hold stays. */
  function Withdraw(fs: FeeSchedule, d: Desk, id: string, unstored: bool): Desk {
    if id !in d.orders || !Book.Cancel(d.book, id).1 then d
    else
      var d1 := d.(book := Book.Cancel(d.book, id).0);
      if !CanMove(d.orders[id].stage, Withdrawn) then d1
      else
        d1.(orders := Move(d.orders, id, Withdrawn),
            funds := if unstored then d.funds else ReleaseOpen(fs, d.funds, d.orders[id]))
  }

  datatype Cancellation = Freed | UnknownOrder | NotOnBook | NotMoved

  /** What a cancel request answers. */
  function Answered(d: Desk, id: string, unstored: bool): Cancellation {
    if id !in d.orders then UnknownOrder
    else if !Book.Cancel(d.book, id).1 then NotOnBook
    else if unstored || !CanMove(d.orders[id].stage, Withdrawn) then NotMoved
    else Freed
  }
}
