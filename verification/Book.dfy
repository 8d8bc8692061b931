/** The order book as a value: the vocabulary of the matching engine and the pure functions
    that say what matching, resting, cancelling and stop triggering do to it.

    `Sweep` is the reference: a greedy fill of one flat price-time queue.  `SweepLevels` is the
    same walk over the two-level structure (price levels, each with a first-in first-out queue)
    that the engine keeps; `Priority.dfy` proves that the two agree. */
module Book {

  datatype Side = Buy | Sell
  {
    function Opposite(): Side { if Buy? then Sell else Buy }
  }

  datatype OrderType = Limit | Market | Stop | StopLimit | TakeProfit | TakeProfitLimit

  datatype Status = New | PartiallyFilled | Filled | Cancelled | Rejected

  datatype TimeInForce = GTC | IOC | FOK | GTD | GTT

  /** What happens when an incoming order meets a resting order of the same user. */
  datatype STPMode = CancelNewest | CancelOldest | CancelBoth | Allow

  datatype OrderView = OrderView(
    id: string, user: string, side: Side, otype: OrderType, price: real,
    qty: real, filled: real, status: Status, tif: TimeInForce, postOnly: bool)
  {
    function Open(): real { qty - filled }

    /** The order after `amount` more of it has been filled. */
    function Take(amount: real): OrderView {
      this.(filled := filled + amount,
            status := if filled + amount == qty then Filled else PartiallyFilled)
    }
  }

  /** One price level: a price and its queue, oldest order first. */
  datatype Level = Level(price: real, orders: seq<OrderView>)

  /** A single match, seen from the resting side. */
  datatype Fill = Fill(makerId: string, makerUser: string, price: real, qty: real)

  datatype Trade = Trade(
    number: nat, buyerId: string, sellerId: string, buyOrderId: string, sellOrderId: string,
    price: real, qty: real)

  function Min(a: real, b: real): real { if a <= b then a else b }

  // ---------------------------------------------------------------------------
  // Price-time order
  // ---------------------------------------------------------------------------

  /** Is price `p` strictly ahead of price `q` in the queue of `side`? */
  predicate Better(side: Side, p: real, q: real) {
    if side.Buy? then p > q else p < q
  }

  /** May `t` trade at a resting price?  Only limit orders carry a price bound. */
  predicate Crosses(t: OrderView, price: real) {
    t.otype.Limit? ==> if t.side.Buy? then price <= t.price else price >= t.price
  }

  predicate RestingOk(o: OrderView, side: Side, price: real) {
    o.side == side && o.price == price && o.otype.Limit? && 0.0 <= o.filled < o.qty
  }

  predicate LevelOk(l: Level, side: Side) {
    forall i :: 0 <= i < |l.orders| ==> RestingOk(l.orders[i], side, l.price)
  }

  predicate Sorted(levels: seq<Level>, side: Side) {
    forall i, j :: 0 <= i < j < |levels| ==> Better(side, levels[i].price, levels[j].price)
  }

  predicate SideInv(levels: seq<Level>, side: Side) {
    Sorted(levels, side) && forall i :: 0 <= i < |levels| ==> LevelOk(levels[i], side)
  }

  /** The flat price-time queue behind a list of levels. */
  function Flat(levels: seq<Level>): seq<OrderView> {
    if levels == [] then [] else levels[0].orders + Flat(levels[1..])
  }

  // ---------------------------------------------------------------------------
  // Matching
  // ---------------------------------------------------------------------------

  /** `gone` lists the resting orders that left the queue, in order and in their final state. */
  datatype Outcome = Outcome(
    taker: OrderView, fills: seq<Fill>, gone: seq<OrderView>, queue: seq<OrderView>, stopped: bool)

  datatype LevelOutcome = LevelOutcome(
    taker: OrderView, fills: seq<Fill>, gone: seq<OrderView>, levels: seq<Level>, stopped: bool)

  predicate SelfTrade(mode: STPMode, t: OrderView, r: OrderView) {
    t.user == r.user && !mode.Allow?
  }

  function FillOf(r: OrderView, amount: real): Fill {
    Fill(r.id, r.user, r.price, amount)
  }

  /** Greedy fill of the flat queue `q` by the incoming order `t`. */
  function Sweep(mode: STPMode, t: OrderView, q: seq<OrderView>): Outcome
    decreases |q|
  {
    if q == [] || t.Open() <= 0.0 || !Crosses(t, q[0].price) then
      Outcome(t, [], [], q, false)
    else if SelfTrade(mode, t, q[0]) then
      match mode
      case CancelNewest => Outcome(t.(status := Cancelled), [], [], q, true)
      case CancelBoth =>
        Outcome(t.(status := Cancelled), [], [q[0].(status := Cancelled)], q[1..], true)
      case _ =>
        var rest := Sweep(mode, t, q[1..]);
        rest.(gone := [q[0].(status := Cancelled)] + rest.gone)
    else
      var amount := Min(t.Open(), q[0].Open());
      var maker := q[0].Take(amount);
      if maker.filled == maker.qty then
        var rest := Sweep(mode, t.Take(amount), q[1..]);
        rest.(fills := [FillOf(q[0], amount)] + rest.fills, gone := [maker] + rest.gone)
      else
        Outcome(t.Take(amount), [FillOf(q[0], amount)], [], [maker] + q[1..], false)
  }

  /** The same walk over price levels: a level is dropped as soon as its queue is empty. */
  function SweepLevels(mode: STPMode, t: OrderView, levels: seq<Level>): LevelOutcome
    decreases |levels|
  {
    if levels == [] || t.Open() <= 0.0 || !Crosses(t, levels[0].price) then
      LevelOutcome(t, [], [], levels, false)
    else
      var o := Sweep(mode, t, levels[0].orders);
      if o.stopped || o.queue != [] then
        LevelOutcome(o.taker, o.fills, o.gone, [Level(levels[0].price, o.queue)] + levels[1..], o.stopped)
      else
        var rest := SweepLevels(mode, o.taker, levels[1..]);
        rest.(fills := o.fills + rest.fills, gone := o.gone + rest.gone)
  }

  /** Resting an order: join the level of its price, or open a level in price order. */
  function Insert(levels: seq<Level>, o: OrderView, side: Side): seq<Level> {
    if levels == [] then [Level(o.price, [o])]
    else if levels[0].price == o.price then
      [Level(o.price, levels[0].orders + [o])] + levels[1..]
    else if Better(side, o.price, levels[0].price) then [Level(o.price, [o])] + levels
    else [levels[0]] + Insert(levels[1..], o, side)
  }

  // ---------------------------------------------------------------------------
  // Stop orders
  // ---------------------------------------------------------------------------

  predicate Triggers(o: OrderView, price: real) {
    if o.otype.TakeProfit? || o.otype.TakeProfitLimit? then
      if o.side.Buy? then price <= o.price else price >= o.price
    else
      if o.side.Buy? then price >= o.price else price <= o.price
  }

  function Kept(stops: seq<OrderView>, price: real): seq<OrderView> {
    if stops == [] then []
    else (if Triggers(stops[0], price) then [] else [stops[0]]) + Kept(stops[1..], price)
  }

  /** The triggered stops, converted to limit orders. */
  function Fired(stops: seq<OrderView>, price: real): seq<OrderView> {
    if stops == [] then []
    else (if Triggers(stops[0], price) then [stops[0].(otype := Limit)] else []) + Fired(stops[1..], price)
  }

  /** What a trade touches besides the two orders: the armed stops, the triggered stops whose
      match has been launched but has not run yet, the last price and the sequence number. */
  datatype Watch = Watch(stops: seq<OrderView>, pending: seq<OrderView>, last: real, number: nat)
  {
    function See(price: real): Watch {
      Watch(Kept(stops, price), pending + Fired(stops, price), price, number + 1)
    }
  }

  function Ripple(w: Watch, fills: seq<Fill>): Watch
    decreases |fills|
  {
    if fills == [] then w else Ripple(w.See(fills[0].price), fills[1..])
  }

  function TradeOf(t: OrderView, f: Fill, number: nat): Trade {
    if t.side.Buy?
    then Trade(number, t.user, f.makerUser, t.id, f.makerId, f.price, f.qty)
    else Trade(number, f.makerUser, t.user, f.makerId, t.id, f.price, f.qty)
  }

  function TradesOf(t: OrderView, fills: seq<Fill>, number: nat): seq<Trade>
    decreases |fills|
  {
    if fills == [] then []
    else [TradeOf(t, fills[0], number + 1)] + TradesOf(t, fills[1..], number + 1)
  }

  // ---------------------------------------------------------------------------
  // The whole book
  // ---------------------------------------------------------------------------

  datatype BookView = BookView(mode: STPMode, bids: seq<Level>, asks: seq<Level>, watch: Watch)
  {
    function On(side: Side): seq<Level> { if side.Buy? then bids else asks }

    function With(side: Side, levels: seq<Level>): BookView {
      if side.Buy? then this.(bids := levels) else this.(asks := levels)
    }

    function Queue(side: Side): seq<OrderView> { Flat(On(side)) }
  }

  datatype Matched = Matched(book: BookView, order: OrderView, trades: seq<Trade>)

  function OpenSum(q: seq<OrderView>): real {
    if q == [] then 0.0 else q[0].Open() + OpenSum(q[1..])
  }

  /** The longest prefix of a queue at prices `t` may trade at. */
  function Crossing(t: OrderView, q: seq<OrderView>): seq<OrderView> {
    if q == [] || !Crosses(t, q[0].price) then [] else [q[0]] + Crossing(t, q[1..])
  }

  /** Fill-or-kill fails when no crossing order, or not enough crossing quantity, rests opposite. */
  predicate FokFails(t: OrderView, levels: seq<Level>) {
    t.tif.FOK? &&
    (Crossing(t, Flat(levels)) == [] || OpenSum(Crossing(t, Flat(levels))) < t.Open())
  }

  predicate PostOnlyCrossing(t: OrderView, opposite: seq<Level>) {
    t.postOnly && opposite != [] &&
    if t.side.Buy? then t.price >= opposite[0].price else t.price <= opposite[0].price
  }

  predicate Refused(b: BookView, o: OrderView) {
    (o.otype.Limit? && o.price > 0.0 && FokFails(o, b.On(o.side.Opposite()))) ||
    PostOnlyCrossing(o, b.On(o.side.Opposite()))
  }

  /** What is left of an order after its sweep: killed if immediate-or-cancel, rested if it is a
      limit order, dropped otherwise. */
  predicate Rests(s: LevelOutcome) {
    !s.stopped && s.taker.Open() > 0.0 && !s.taker.tif.IOC? && s.taker.otype.Limit?
  }

  function Match(b: BookView, o: OrderView): Matched {
    if Refused(b, o) then Matched(b, o.(status := Rejected), [])
    else
      var s := SweepLevels(b.mode, o, b.On(o.side.Opposite()));
      var b1 := b.With(o.side.Opposite(), s.levels).(watch := Ripple(b.watch, s.fills));
      var trades := TradesOf(o, s.fills, b.watch.number);
      if Rests(s) then Matched(Rest(b1, s.taker), s.taker, trades)
      else if !s.stopped && s.taker.Open() > 0.0 && s.taker.tif.IOC? then
        Matched(b1, s.taker.(status := Cancelled), trades)
      else Matched(b1, s.taker, trades)
  }

  /** Put an order on its own side without matching it. */
  function Rest(b: BookView, o: OrderView): BookView {
    b.With(o.side, Insert(b.On(o.side), o, o.side)).(watch := b.watch.(number := b.watch.number + 1))
  }

  // ---------------------------------------------------------------------------
  // Cancelling
  // ---------------------------------------------------------------------------

  predicate Has(q: seq<OrderView>, id: string) {
    exists i :: 0 <= i < |q| && q[i].id == id
  }

  /** A queue without its first order named `id`. */
  function Without(q: seq<OrderView>, id: string): seq<OrderView> {
    if q == [] then [] else if q[0].id == id then q[1..] else [q[0]] + Without(q[1..], id)
  }

  predicate HasLevel(levels: seq<Level>, id: string) {
    exists i :: 0 <= i < |levels| && Has(levels[i].orders, id)
  }

  function WithoutLevel(levels: seq<Level>, id: string): seq<Level> {
    if levels == [] then []
    else if Has(levels[0].orders, id) then
      var q := Without(levels[0].orders, id);
      if q == [] then levels[1..] else [Level(levels[0].price, q)] + levels[1..]
    else [levels[0]] + WithoutLevel(levels[1..], id)
  }

  function Bump(b: BookView): BookView {
    b.(watch := b.watch.(number := b.watch.number + 1))
  }

  /** Cancel by identifier: armed stops first, then bids, then asks. */
  function Cancel(b: BookView, id: string): (r: (BookView, bool)) {
    if Has(b.watch.stops, id) then
      (Bump(b.(watch := b.watch.(stops := Without(b.watch.stops, id)))), true)
    else if HasLevel(b.bids, id) then (Bump(b.(bids := WithoutLevel(b.bids, id))), true)
    else if HasLevel(b.asks, id) then (Bump(b.(asks := WithoutLevel(b.asks, id))), true)
    else (b, false)
  }

  function AddStop(b: BookView, o: OrderView): BookView {
    b.(watch := b.watch.(stops := b.watch.stops + [o]))
  }
}
