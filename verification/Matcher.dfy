/** The matching engine itself: a two-level order book kept in place.  Every method is proved to
    change the book exactly as the functions of `Book` say. */
module Matching {
  import opened Book
  import opened Walk
  import opened BookInvariant

  /** Where an order object currently is.  An order is in at most one place, which is what keeps
      the queues, the armed stops and the pending stops disjoint. */
  datatype Place = Nowhere | Booked | Armed | Pending | Done

  class Order {
    const id: string
    const user: string
    const side: Side
    const price: real
    const qty: real
    const tif: TimeInForce
    const postOnly: bool
    var otype: OrderType
    var filled: real
    var status: Status
    ghost var place: Place

    constructor (id: string, user: string, side: Side, otype: OrderType, price: real, qty: real,
                 filled: real, tif: TimeInForce, postOnly: bool)
      ensures View() == OrderView(id, user, side, otype, price, qty, filled, New, tif, postOnly)
      ensures place == Nowhere
    {
      this.id, this.user, this.side, this.otype, this.price := id, user, side, otype, price;
      this.qty, this.filled, this.tif, this.postOnly := qty, filled, tif, postOnly;
      status, place := New, Nowhere;
    }

    function View(): OrderView
      reads this`otype, this`filled, this`status
    {
      OrderView(id, user, side, otype, price, qty, filled, status, tif, postOnly)
    }

    /** Fill `amount` more of this order. */
    method Fill(amount: real)
      modifies this
      ensures View() == old(View()).Take(amount) && place == old(place)
    {
      filled := filled + amount;
      status := if filled == qty then Filled else PartiallyFilled;
    }
  }

  /** One price level of a side: its price and its queue of orders, oldest first. */
  datatype MatchLimit = MatchLimit(price: real, orders: seq<Order>)

  function Views(os: seq<Order>): (vs: seq<OrderView>)
    reads os`otype, os`filled, os`status
    ensures |vs| == |os|
    ensures forall i :: 0 <= i < |os| ==> vs[i] == os[i].View()
  {
    if os == [] then [] else [os[0].View()] + Views(os[1..])
  }

  function LevelView(l: MatchLimit): Level
    reads l.orders`otype, l.orders`filled, l.orders`status
  {
    Level(l.price, Views(l.orders))
  }

  function OrdersOf(ls: seq<MatchLimit>): (os: set<Order>)
    ensures forall l, o :: l in ls && o in l.orders ==> o in os
  {
    set l, o | l in ls && o in l.orders :: o
  }

  function Levels(ls: seq<MatchLimit>): (vs: seq<Level>)
    reads OrdersOf(ls)`otype, OrdersOf(ls)`filled, OrdersOf(ls)`status
    ensures |vs| == |ls|
    ensures forall i :: 0 <= i < |ls| ==> vs[i] == LevelView(ls[i])
  {
    if ls == [] then [] else
      assert ls[0] in ls;
      [LevelView(ls[0])] + Levels(ls[1..])
  }

  predicate NoDup<T(==)>(q: seq<T>) {
    forall i, j :: 0 <= i < j < |q| ==> q[i] != q[j]
  }

  /** No order stands twice on a side. */
  predicate Distinct(ls: seq<MatchLimit>) {
    (forall i :: 0 <= i < |ls| ==> NoDup(ls[i].orders)) &&
    forall i, j, o :: 0 <= i < j < |ls| && o in ls[i].orders ==> o !in ls[j].orders
  }

  ghost predicate LimitOk(l: MatchLimit, side: Side)
    reads l.orders`otype, l.orders`filled, l.orders`status, l.orders`place
  {
    NoDup(l.orders) && LevelOk(LevelView(l), side) &&
    forall k :: 0 <= k < |l.orders| ==> l.orders[k].place == Booked
  }

  ghost predicate SideOk(ls: seq<MatchLimit>, side: Side)
    reads OrdersOf(ls)`otype, OrdersOf(ls)`filled, OrdersOf(ls)`status, OrdersOf(ls)`place
  {
    Distinct(ls) && SideInv(Levels(ls), side) && forall o :: o in OrdersOf(ls) ==> o.place == Booked
  }

  class Matcher {
    var bids: seq<MatchLimit>
    var asks: seq<MatchLimit>
    var stopOrders: seq<Order>
    var pending: seq<Order>      // triggered stops whose match has been launched but has not run
    var lastPrice: real
    var sequenceNum: nat
    var mode: STPMode

    function WatchView(): Watch
      reads this`stopOrders, this`pending, this`lastPrice, this`sequenceNum, stopOrders`otype, stopOrders`filled, stopOrders`status, pending`otype, pending`filled, pending`status
    {
      Watch(Views(stopOrders), Views(pending), lastPrice, sequenceNum)
    }

    ghost predicate WatchOk()
      reads this`stopOrders, this`pending, stopOrders`place, pending`place
    {
      NoDup(stopOrders) && NoDup(pending) &&
      (forall k :: 0 <= k < |stopOrders| ==> stopOrders[k].place == Armed) &&
      forall k :: 0 <= k < |pending| ==> pending[k].place == Pending
    }

    // -------------------------------------------------------------------------
    // Stop orders
    // -------------------------------------------------------------------------

    /** Move every stop the price triggers to the pending matches, as a limit order. */
    method TriggerStopOrders(price: real)
      requires WatchOk()
      modifies this`stopOrders, this`pending, stopOrders
      ensures WatchOk()
      ensures Views(stopOrders) == Kept(old(Views(stopOrders)), price)
      ensures Views(pending) == old(Views(pending)) + Fired(old(Views(stopOrders)), price)
      ensures forall k :: 0 <= k < |stopOrders| ==> stopOrders[k] in old(stopOrders)
    {
      hide Views, Levels, Kept, Fired, AsLimits;
      var triggered, remaining := SplitStops(stopOrders, price);
      ghost var armed, waiting := stopOrders, pending;
      ghost var kept := Views(remaining);
      stopOrders := remaining;
      forall k | 0 <= k < |triggered| ensures triggered[k] in old(stopOrders) {
        assert triggered[k] in armed;
      }
      assert forall k :: 0 <= k < |waiting| ==> waiting[k] !in armed && waiting[k] !in triggered;
      LaunchAll(triggered);
      assert forall k :: 0 <= k < |remaining| ==> remaining[k] !in triggered && remaining[k] in armed;
      assert Views(stopOrders) == kept;
    }

    /** Convert triggered stops to limit orders and launch their matches. */
    method LaunchAll(triggered: seq<Order>)
      requires NoDup(triggered) && NoDup(pending)
      requires forall k :: 0 <= k < |pending| ==> pending[k] !in triggered
      modifies this`pending, triggered
      ensures pending == old(pending) + triggered && NoDup(pending)
      ensures Views(pending) == old(Views(pending)) + old(AsLimits(Views(triggered)))
      ensures forall k :: 0 <= k < |triggered| ==>
        triggered[k].View() == old(triggered[k].View()).(otype := Limit) && triggered[k].place == Pending
    {
      hide Views, Levels;
      var i := 0;
      while i < |triggered|
        invariant 0 <= i <= |triggered|
        invariant pending == old(pending) + triggered[..i]
        invariant forall k :: 0 <= k < i ==>
          triggered[k].View() == old(triggered[k].View()).(otype := Limit) && triggered[k].place == Pending
        invariant forall k :: i <= k < |triggered| ==> triggered[k].View() == old(triggered[k].View())
      {
        var ord := triggered[i];
        ord.otype := Limit;
        ord.place := Pending;
        pending := pending + [ord];
        i := i + 1;
      }
      assert triggered[..i] == triggered;
      assert forall k :: 0 <= k < |old(pending)| ==> pending[k] == old(pending)[k] && pending[k].View() == old(pending[k].View());
      assert forall k :: 0 <= k < |triggered| ==> pending[|old(pending)| + k] == triggered[k];
    }

    // -------------------------------------------------------------------------
    // The matching loops
    // -------------------------------------------------------------------------

    /** Bookkeeping after each trade: number it, note its price, trigger stops. */
    method RecordTrade(price: real)
      requires WatchOk()
      modifies this`stopOrders, this`pending, this`sequenceNum, this`lastPrice, stopOrders
      ensures WatchOk()
      ensures WatchView() == old(WatchView()).See(price)
      ensures forall k :: 0 <= k < |stopOrders| ==> stopOrders[k] in old(stopOrders)
    {
      hide Views, Levels;
      sequenceNum := sequenceNum + 1;
      lastPrice := price;
      TriggerStopOrders(price);
    }

    /** The incoming order and the level hold no stop. */
    lemma QueueApart(order: Order, limit: MatchLimit)
      requires WatchOk() && LimitOk(limit, order.side.Opposite()) && order.place == Nowhere
      ensures forall k :: 0 <= k < |limit.orders| ==>
        limit.orders[k] != order && limit.orders[k] !in stopOrders && limit.orders[k] !in pending
      ensures order !in stopOrders && order !in pending
      ensures limit.orders != [] ==> limit.orders[0].price == limit.price
    {
      assert limit.orders != [] ==> RestingOk(Views(limit.orders)[0], order.side.Opposite(), limit.price);
    }

    /** The same, beside an incoming order and a level, which hold no stop. */
    method RecordBeside(order: Order, limit: MatchLimit, price: real)
      requires WatchOk() && LimitOk(limit, order.side.Opposite()) && order.place == Nowhere
      modifies this`stopOrders, this`pending, this`sequenceNum, this`lastPrice, stopOrders
      ensures WatchOk() && LimitOk(limit, order.side.Opposite()) && order.place == Nowhere
      ensures WatchView() == old(WatchView()).See(price)
      ensures Views(limit.orders) == old(Views(limit.orders)) && order.View() == old(order.View())
      ensures forall k :: 0 <= k < |stopOrders| ==> stopOrders[k] in old(stopOrders)
    {
      hide Views, Levels, WatchOk, WatchView, NoDup;
      QueueApart(order, limit);
      RecordTrade(price);
      assert forall k :: 0 <= k < |limit.orders| ==> limit.orders[k].View() == old(limit.orders[k].View());
    }

    /** Trade with the head of a level. */
    method TradeHead(order: Order, limit: MatchLimit) returns (limit': MatchLimit, trade: Trade)
      requires WatchOk() && LimitOk(limit, order.side.Opposite()) && order.place == Nowhere
      requires limit.orders != [] && order.filled < order.qty
      modifies order, limit.orders[0], stopOrders
      modifies this`stopOrders, this`pending, this`sequenceNum, this`lastPrice
      ensures WatchOk() && LimitOk(limit', order.side.Opposite()) && order.place == Nowhere
      ensures Traded(old(order.View()), old(Views(limit.orders)), old(WatchView()),
                     order.View(), Views(limit'.orders), WatchView(), trade)
      ensures limit' == limit || limit' == limit.(orders := limit.orders[1..])
      ensures forall k :: 0 <= k < |stopOrders| ==> stopOrders[k] in old(stopOrders)
    {
      hide Views, Levels, LimitOk, WatchOk, Triggers, Kept, Fired;
      QueueApart(order, limit);
      var head := limit.orders[0];
      assert head in limit.orders;
      var amount;
      limit', amount := FillHead(order, limit);
      assert WatchView() == old(WatchView());
      RecordBeside(order, limit', limit.price);
      trade := TradeOf(order.View(), Fill(head.id, head.user, limit.price, amount), sequenceNum);
    }

    /** Meet the head of a level: self-trade prevention, or a trade. */
    method MatchHead(order: Order, limit: MatchLimit) returns (limit': MatchLimit, trades: seq<Trade>, stopped: bool)
      requires WatchOk() && LimitOk(limit, order.side.Opposite()) && order.place == Nowhere
      requires limit.orders != [] && order.filled < order.qty
      modifies order, limit.orders[0], stopOrders
      modifies this`stopOrders, this`pending, this`sequenceNum, this`lastPrice
      ensures WatchOk() && LimitOk(limit', order.side.Opposite()) && order.place == Nowhere
      ensures HeadMet(mode, old(order.View()), old(Views(limit.orders)), old(WatchView()),
                      order.View(), Views(limit'.orders), WatchView(), trades, stopped)
      ensures limit' == limit || limit' == limit.(orders := limit.orders[1..])
      ensures forall k :: 0 <= k < |stopOrders| ==> stopOrders[k] in old(stopOrders)
    {
      hide Views, Levels;
      if order.user == limit.orders[0].user && mode != Allow {
        trades, stopped := [], mode != CancelOldest;
        limit' := PreventSelfTrade(mode, order, limit);
      } else {
        var trade;
        limit', trade := TradeHead(order, limit);
        trades, stopped := [trade], false;
      }
    }

    ghost function Now(order: Order, limit: MatchLimit, trades: seq<Trade>): Meeting
      reads this`stopOrders, this`pending, this`lastPrice, this`sequenceNum, stopOrders, pending, order, limit.orders
    {
      Meeting(order.View(), Views(limit.orders), WatchView(), trades)
    }

    /** One iteration of the matching loop, as a step of the walk that began at `start`. */
    method MatchNext(order: Order, limit: MatchLimit, trades: seq<Trade>, ghost start: Meeting)
      returns (limit': MatchLimit, trades': seq<Trade>, stopped: bool)
      requires WatchOk() && LimitOk(limit, order.side.Opposite()) && order.place == Nowhere
      requires limit.orders != [] && order.filled < order.qty && Crosses(order.View(), limit.price)
      requires Continues(mode, start, Now(order, limit, trades), false)
      modifies order, limit.orders[0], stopOrders
      modifies this`stopOrders, this`pending, this`sequenceNum, this`lastPrice
      ensures WatchOk() && LimitOk(limit', order.side.Opposite()) && order.place == Nowhere
      ensures Continues(mode, start, Now(order, limit', trades'), stopped)
      ensures stopped || Left(Now(order, limit', trades')) < old(Left(Now(order, limit, trades)))
      ensures order.otype == old(order.otype)
      ensures limit' == limit || limit' == limit.(orders := limit.orders[1..])
      ensures forall k :: 0 <= k < |stopOrders| ==> stopOrders[k] in old(stopOrders)
    {
      hide Views, Levels;
      ghost var before := Now(order, limit, trades);
      assert RestingOk(Views(limit.orders)[0], order.side.Opposite(), limit.price);
      var more;
      limit', more, stopped := MatchHead(order, limit);
      trades' := trades + more;
      Advance(mode, start, before, Now(order, limit', trades'), more, stopped);
    }

    /** Match against one price level until its queue is empty or the order is filled. */
    method MatchLevel(order: Order, limit: MatchLimit) returns (limit': MatchLimit, trades: seq<Trade>, stopped: bool)
      requires WatchOk() && LimitOk(limit, order.side.Opposite()) && order.place == Nowhere
      requires Crosses(order.View(), limit.price)
      modifies order, limit.orders, stopOrders
      modifies this`stopOrders, this`pending, this`sequenceNum, this`lastPrice
      ensures WatchOk() && LimitOk(limit', order.side.Opposite()) && order.place == Nowhere
      ensures LevelMatched(mode, old(Now(order, limit, [])), Now(order, limit', trades), stopped)
      ensures limit'.price == limit.price && forall k :: 0 <= k < |limit'.orders| ==> limit'.orders[k] in limit.orders
      ensures forall k :: 0 <= k < |stopOrders| ==> stopOrders[k] in old(stopOrders)
    {
      hide Views, Levels;
      ghost var start := Now(order, limit, []);
      limit', trades, stopped := limit, [], false;
      while !stopped && |limit'.orders| > 0 && order.qty > order.filled
        invariant WatchOk() && LimitOk(limit', order.side.Opposite()) && order.place == Nowhere
        invariant limit'.price == limit.price && forall k :: 0 <= k < |limit'.orders| ==> limit'.orders[k] in limit.orders
        invariant forall k :: 0 <= k < |stopOrders| ==> stopOrders[k] in old(stopOrders)
        invariant order.otype == old(order.otype)
        invariant Continues(mode, start, Now(order, limit', trades), stopped)
        decreases !stopped, Left(Now(order, limit', trades))
      {
        limit', trades, stopped := MatchNext(order, limit', trades, start);
      }
      Finished(mode, start, Now(order, limit', trades), stopped);
    }

    ghost function Tour(order: Order, limits: seq<MatchLimit>, trades: seq<Trade>): Journey
      reads this`stopOrders, this`pending, this`lastPrice, this`sequenceNum, stopOrders, pending, order, OrdersOf(limits)
    {
      Journey(order.View(), Levels(limits), WatchView(), trades)
    }

    /** Match against the best level of a side; the levels behind it do not change. */
    method MatchFirst(order: Order, limits: seq<MatchLimit>) returns (limit: MatchLimit, trades: seq<Trade>, stopped: bool)
      requires WatchOk() && SideOk(limits, order.side.Opposite()) && order.place == Nowhere
      requires limits != [] && Crosses(order.View(), limits[0].price)
      modifies order, limits[0].orders, stopOrders
      modifies this`stopOrders, this`pending, this`sequenceNum, this`lastPrice
      ensures WatchOk() && LimitOk(limit, order.side.Opposite()) && order.place == Nowhere
      ensures LevelMatched(mode, old(Now(order, limits[0], [])), Now(order, limit, trades), stopped)
      ensures limit.price == limits[0].price && forall k :: 0 <= k < |limit.orders| ==> limit.orders[k] in limits[0].orders
      ensures forall k :: 0 <= k < |stopOrders| ==> stopOrders[k] in old(stopOrders)
      ensures Levels(limits[1..]) == old(Levels(limits[1..])) && SideOk(limits[1..], order.side.Opposite())
    {
      hide Views, Levels, Now, Crosses, LevelMatched;
      ghost var rest := limits[1..];
      BestApart(limits, order.side.Opposite());
      limit, trades, stopped := MatchLevel(order, limits[0]);
      assert Levels(rest) == old(Levels(rest));
      assert SideOk(rest, order.side.Opposite());
    }

    /** Match against the best level of a side and drop it if that emptied it. */
    method MatchBest(order: Order, limits: seq<MatchLimit>) returns (limits': seq<MatchLimit>, trades: seq<Trade>, stopped: bool)
      requires WatchOk() && SideOk(limits, order.side.Opposite()) && order.place == Nowhere
      requires limits != [] && Crosses(order.View(), limits[0].price)
      modifies order, limits[0].orders, stopOrders
      modifies this`stopOrders, this`pending, this`sequenceNum, this`lastPrice
      ensures WatchOk() && SideOk(limits', order.side.Opposite()) && order.place == Nowhere
      ensures BestMatched(mode, old(Tour(order, limits, [])), Tour(order, limits', trades), stopped)
      ensures OrdersOf(limits') <= OrdersOf(limits)
      ensures forall k :: 0 <= k < |stopOrders| ==> stopOrders[k] in old(stopOrders)
    {
      hide Views, Levels;
      LevelsCons(limits);
      var limit;
      limit, trades, stopped := MatchFirst(order, limits);
      BestBack(limit, limits, order.side.Opposite());
      limits' := if !stopped && limit.orders == [] then limits[1..] else [limit] + limits[1..];
    }

    /** One iteration of the level loop, as a step of the walk that began at `start`. */
    method MatchNextLevel(order: Order, limits: seq<MatchLimit>, trades: seq<Trade>, ghost start: Journey)
      returns (limits': seq<MatchLimit>, trades': seq<Trade>, stopped: bool)
      requires WatchOk() && SideOk(limits, order.side.Opposite()) && order.place == Nowhere
      requires limits != [] && 0.0 <= order.filled < order.qty && Crosses(order.View(), limits[0].price)
      requires ContinuesSide(mode, start, Tour(order, limits, trades), false)
      modifies order, limits[0].orders, stopOrders
      modifies this`stopOrders, this`pending, this`sequenceNum, this`lastPrice
      ensures WatchOk() && SideOk(limits', order.side.Opposite()) && order.place == Nowhere
      ensures ContinuesSide(mode, start, Tour(order, limits', trades'), stopped)
      ensures OrderOk(order.View())
      ensures stopped || |limits'| < |limits| || (|limits'| == |limits| && order.filled >= order.qty)
      ensures OrdersOf(limits') <= OrdersOf(limits)
      ensures forall k :: 0 <= k < |stopOrders| ==> stopOrders[k] in old(stopOrders)
    {
      hide Views, Levels;
      ghost var before := Tour(order, limits, []);
      var more;
      limits', more, stopped := MatchBest(order, limits);
      trades' := trades + more;
      AdvanceSide(mode, start, before, trades, Tour(order, limits', more), stopped, order.side.Opposite());
    }

    /** Match an order against a whole side: best level first, until the order is filled, stopped,
        or the next level does not cross.  Every level before the current one has been dropped, so
        the current level is always the first. */
    method MatchAgainst(order: Order, limits: seq<MatchLimit>) returns (limits': seq<MatchLimit>, trades: seq<Trade>, stopped: bool)
      requires WatchOk() && SideOk(limits, order.side.Opposite()) && order.place == Nowhere
      requires OrderOk(order.View())
      modifies order, OrdersOf(limits), stopOrders
      modifies this`stopOrders, this`pending, this`sequenceNum, this`lastPrice
      ensures WatchOk() && SideOk(limits', order.side.Opposite()) && order.place == Nowhere
      ensures SideMatched(mode, old(Tour(order, limits, [])), Tour(order, limits', trades), stopped)
      ensures OrdersOf(limits') <= OrdersOf(limits)
      ensures forall k :: 0 <= k < |stopOrders| ==> stopOrders[k] in old(stopOrders)
    {
      hide Views, Levels;
      ghost var start := Tour(order, limits, []);
      limits', trades, stopped := limits, [], false;
      while !stopped && limits' != [] && order.qty > order.filled && Crosses(order.View(), limits'[0].price)
        invariant WatchOk() && SideOk(limits', order.side.Opposite()) && order.place == Nowhere
        invariant OrderOk(order.View()) && OrdersOf(limits') <= OrdersOf(limits)
        invariant forall k :: 0 <= k < |stopOrders| ==> stopOrders[k] in old(stopOrders)
        invariant ContinuesSide(mode, start, Tour(order, limits', trades), stopped)
        decreases !stopped, |limits'| + if order.qty > order.filled then 1 else 0
      {
        assert forall k :: 0 <= k < |limits'[0].orders| ==> limits'[0].orders[k] in OrdersOf(limits');
        limits', trades, stopped := MatchNextLevel(order, limits', trades, start);
      }
      FinishedSide(mode, start, Tour(order, limits', trades), stopped);
    }

    // -------------------------------------------------------------------------
    // The public operations
    // -------------------------------------------------------------------------

    ghost predicate Valid()
      reads this, stopOrders, pending, OrdersOf(bids), OrdersOf(asks)
    {
      WatchOk() && SideOk(bids, Buy) && SideOk(asks, Sell)
    }

    function BookOf(): BookView
      reads this, stopOrders, pending, OrdersOf(bids), OrdersOf(asks)
    {
      BookView(mode, Levels(bids), Levels(asks), WatchView())
    }

    constructor ()
      ensures Valid()
      ensures BookOf() == BookView(CancelNewest, [], [], Watch([], [], 0.0, 0))
      ensures bids == [] && asks == [] && stopOrders == [] && pending == []
    {
      hide Views, Levels;
      bids, asks, stopOrders, pending := [], [], [], [];
      lastPrice, sequenceNum, mode := 0.0, 0, CancelNewest;
    }

    /** The two sides hold different orders, and neither holds a stop. */
    lemma SidesApart()
      requires Valid()
      ensures forall o :: o in OrdersOf(bids) ==> o !in OrdersOf(asks) && o !in stopOrders && o !in pending
      ensures forall o :: o in OrdersOf(asks) ==> o !in OrdersOf(bids) && o !in stopOrders && o !in pending
    {
      hide Views, Levels;
      forall o | o in OrdersOf(bids) ensures o.side == Buy { SideOfMember(bids, Buy, o); }
      forall o | o in OrdersOf(asks) ensures o.side == Sell { SideOfMember(asks, Sell, o); }
    }

    /** Match against one side; the other side does not change. */
    method MatchBeside(order: Order, limits: seq<MatchLimit>, ghost other: seq<MatchLimit>)
      returns (limits': seq<MatchLimit>, trades: seq<Trade>, stopped: bool)
      requires WatchOk() && SideOk(limits, order.side.Opposite()) && order.place == Nowhere
      requires OrderOk(order.View()) && SideOk(other, order.side)
      requires forall o :: o in OrdersOf(other) ==> o !in OrdersOf(limits)
      modifies order, OrdersOf(limits), stopOrders
      modifies this`stopOrders, this`pending, this`sequenceNum, this`lastPrice
      ensures WatchOk() && SideOk(limits', order.side.Opposite()) && order.place == Nowhere
      ensures SideMatched(mode, old(Tour(order, limits, [])), Tour(order, limits', trades), stopped)
      ensures OrdersOf(limits') <= OrdersOf(limits)
      ensures forall k :: 0 <= k < |stopOrders| ==> stopOrders[k] in old(stopOrders)
      ensures SideOk(other, order.side) && Levels(other) == old(Levels(other))
    {
      hide Views, Levels, Tour, SideMatched;
      limits', trades, stopped := MatchAgainst(order, limits);
      assert Levels(other) == old(Levels(other));
      assert SideOk(other, order.side);
    }

    method SetBids(levels: seq<MatchLimit>)
      requires WatchOk() && SideOk(levels, Buy) && SideOk(asks, Sell)
      modifies this`bids
      ensures Valid() && bids == levels
      ensures BookOf() == BookView(mode, old(Levels(levels)), old(Levels(asks)), old(WatchView()))
    {
      hide Views, Levels, SideOk, WatchOk, WatchView;
      bids := levels;
    }

    method SetAsks(levels: seq<MatchLimit>)
      requires WatchOk() && SideOk(bids, Buy) && SideOk(levels, Sell)
      modifies this`asks
      ensures Valid() && asks == levels
      ensures BookOf() == BookView(mode, old(Levels(bids)), old(Levels(levels)), old(WatchView()))
    {
      hide Views, Levels, SideOk, WatchOk, WatchView;
      asks := levels;
    }

    /** A buy is matched against the asks. */
    method TakeAsks(order: Order) returns (trades: seq<Trade>, stopped: bool)
      requires Valid() && order.place == Nowhere && OrderOk(order.View()) && order.side == Buy
      modifies this, order, OrdersOf(asks), stopOrders
      ensures Valid() && order.place == Nowhere
      ensures Swept(old(BookOf()), old(order.View()), BookOf(), order.View(), trades, stopped)
      ensures bids == old(bids) && OrdersOf(asks) <= old(OrdersOf(asks))
      ensures forall k :: 0 <= k < |stopOrders| ==> stopOrders[k] in old(stopOrders)
    {
      hide Views, Levels, SideOk, WatchOk, WatchView, SweepLevels, Ripple, TradesOf;
      SidesApart();
      var levels;
      levels, trades, stopped := MatchBeside(order, asks, bids);
      SetAsks(levels);
    }

    /** A sell is matched against the bids. */
    method TakeBids(order: Order) returns (trades: seq<Trade>, stopped: bool)
      requires Valid() && order.place == Nowhere && OrderOk(order.View()) && order.side == Sell
      modifies this, order, OrdersOf(bids), stopOrders
      ensures Valid() && order.place == Nowhere
      ensures Swept(old(BookOf()), old(order.View()), BookOf(), order.View(), trades, stopped)
      ensures asks == old(asks) && OrdersOf(bids) <= old(OrdersOf(bids))
      ensures forall k :: 0 <= k < |stopOrders| ==> stopOrders[k] in old(stopOrders)
    {
      hide Views, Levels, SideOk, WatchOk, WatchView, SweepLevels, Ripple, TradesOf;
      SidesApart();
      var levels;
      levels, trades, stopped := MatchBeside(order, bids, asks);
      SetBids(levels);
    }

    /** An order that is nowhere is neither on the book nor among the stops. */
    lemma StrangerApart(order: Order)
      requires Valid() && order.place == Nowhere
      ensures order !in OrdersOf(bids) && order !in OrdersOf(asks)
      ensures order !in stopOrders && order !in pending
    {}

    lemma WatchApart(order: Order)
      requires WatchOk() && order.place == Nowhere
      ensures order !in stopOrders && order !in pending
    {}

    /** Put an order on its own side, next to the unchanged other side. */
    method RestBeside(order: Order, own: seq<MatchLimit>, ghost other: seq<MatchLimit>)
      returns (own': seq<MatchLimit>)
      requires WatchOk() && SideOk(own, order.side) && SideOk(other, order.side.Opposite())
      requires order.place == Nowhere && RestingOk(order.View(), order.side, order.price)
      modifies order`place
      ensures WatchOk() && SideOk(own', order.side) && SideOk(other, order.side.Opposite())
      ensures Levels(own') == Insert(old(Levels(own)), order.View(), order.side)
      ensures Levels(other) == old(Levels(other)) && WatchView() == old(WatchView())
      ensures OrdersOf(own') == OrdersOf(own) + {order} && order.place == Booked
    {
      hide Views, Levels, WatchOk, SideOk, Insert, SideInv, WatchView, RestingOk, NoEmptyLevel, NoEmpty;
      hide Better, LevelOk, Distinct, LevelView, LimitOk, Sorted;
      SideParts(own, order.side);
      SideParts(other, order.side.Opposite());
      WatchApart(order);
      InsertKeeps(Levels(own), order.View(), order.side);
      own' := AddOrderToBook(order, own, order.side);
      ghost var rested := Levels(own');
      order.place := Booked;
      assert Levels(own') == rested;
      SideWhole(own', order.side);
    }

    method NextSequence()
      requires Valid()
      modifies this`sequenceNum
      ensures Valid() && BookOf() == Bump(old(BookOf()))
    {
      hide Views, Levels, SideOk, WatchOk;
      sequenceNum := sequenceNum + 1;
    }

    method AddBid(order: Order)
      requires Valid() && order.place == Nowhere && RestingOk(order.View(), order.side, order.price)
      requires order.side == Buy
      modifies this`bids, this`sequenceNum, order`place
      ensures Valid() && order.place == Booked
      ensures BookOf() == Rest(old(BookOf()), order.View())
      ensures OrdersOf(bids) == old(OrdersOf(bids)) + {order}
    {
      hide Views, Levels, SideOk, WatchOk, WatchView, Insert, SideInv, RestingOk, LimitOk;
      NextSequence();
      var levels := RestBeside(order, bids, asks);
      SetBids(levels);
    }

    method AddAsk(order: Order)
      requires Valid() && order.place == Nowhere && RestingOk(order.View(), order.side, order.price)
      requires order.side == Sell
      modifies this`asks, this`sequenceNum, order`place
      ensures Valid() && order.place == Booked
      ensures BookOf() == Rest(old(BookOf()), order.View())
      ensures OrdersOf(asks) == old(OrdersOf(asks)) + {order}
    {
      hide Views, Levels, SideOk, WatchOk, WatchView, Insert, SideInv, RestingOk, LimitOk;
      NextSequence();
      var levels := RestBeside(order, asks, bids);
      SetAsks(levels);
    }

    /** Put an order on its own side of the book without matching it. */
    method AddOrderToBookDirect(order: Order)
      requires Valid() && order.place == Nowhere && RestingOk(order.View(), order.side, order.price)
      modifies this`bids, this`asks, this`sequenceNum, order`place
      ensures Valid() && order.place == Booked
      ensures BookOf() == Rest(old(BookOf()), order.View())
      ensures OrdersOf(bids) + OrdersOf(asks) == old(OrdersOf(bids) + OrdersOf(asks)) + {order}
    {
      hide *;
      if order.side == Buy {
        AddBid(order);
      } else {
        AddAsk(order);
      }
    }

    /** The matching phase of an order. */
    method TakeLiquidity(order: Order) returns (trades: seq<Trade>, stopped: bool)
      requires Valid() && order.place == Nowhere && OrderOk(order.View())
      modifies this, order, OrdersOf(bids), OrdersOf(asks), stopOrders
      ensures Valid() && order.place == Nowhere
      ensures Swept(old(BookOf()), old(order.View()), BookOf(), order.View(), trades, stopped)
      ensures OrdersOf(bids) + OrdersOf(asks) <= old(OrdersOf(bids) + OrdersOf(asks))
      ensures forall k :: 0 <= k < |stopOrders| ==> stopOrders[k] in old(stopOrders)
    {
      hide *;
      if order.side == Buy {
        trades, stopped := TakeAsks(order);
      } else {
        trades, stopped := TakeBids(order);
      }
    }

    /** An order leaves the engine with a final status. */
    method Finish(order: Order, status: Status)
      requires Valid() && order.place == Nowhere
      modifies order`status, order`place
      ensures Valid() && BookOf() == old(BookOf())
      ensures order.View() == old(order.View()).(status := status) && order.place == Done
    {
      StrangerApart(order);
      hide Views, Levels, SideOk, WatchOk;
      order.status := status;
      order.place := Done;
    }

    /** The checks made before matching; the post-only check looks at the best opposite level. */
    method MustRefuse(order: Order) returns (refused: bool)
      requires Valid()
      ensures Valid() && BookOf() == old(BookOf()) && order.View() == old(order.View())
      ensures refused == Refused(BookOf(), order.View())
    {
      hide Views, Levels, FokFails, SideOk, WatchOk;
      refused := false;
      if order.otype == Limit && order.price > 0.0 {
        refused := FokRefuses(order);
      }
      if !refused {
        var limits := if order.side == Buy then asks else bids;
        assert Levels(limits) == BookOf().On(order.side.Opposite());
        if limits != [] { LevelsCons(limits); }
        refused := order.postOnly && limits != [] &&
          if order.side == Buy then order.price >= limits[0].price else order.price <= limits[0].price;
      }
    }

    method FokRefuses(order: Order) returns (refused: bool)
      requires Valid()
      ensures Valid() && BookOf() == old(BookOf()) && order.View() == old(order.View())
      ensures refused == FokFails(order.View(), BookOf().On(order.side.Opposite()))
    {
      hide Views, Levels, FokFails, SideOk, WatchOk;
      ghost var b, a := bids, asks;
      assert forall o :: o in OrdersOf(b) ==> allocated(o);
      assert forall o :: o in OrdersOf(a) ==> allocated(o);
      var limits := if order.side == Buy then asks else bids;
      refused := IsFok(order, limits);
      assert SideOk(b, Buy) && SideOk(a, Sell);
      assert Levels(b) == old(Levels(b)) && Levels(a) == old(Levels(a));
    }

    /** Match an incoming order: refuse it, or take the opposite side and rest what is left. */
    method MatchOrder(order: Order) returns (trades: seq<Trade>)
      requires Valid() && order.place == Nowhere && OrderOk(order.View())
      modifies this, order, OrdersOf(bids), OrdersOf(asks), stopOrders
      ensures Valid() && (order.place == Booked || order.place == Done)
      ensures Matched(BookOf(), order.View(), trades) == Match(old(BookOf()), old(order.View()))
      ensures OrdersOf(bids) + OrdersOf(asks) <= old(OrdersOf(bids) + OrdersOf(asks)) + {order}
      ensures forall k :: 0 <= k < |stopOrders| ==> stopOrders[k] in old(stopOrders)
    {
      hide Match, Swept, Valid, BookOf, Rest, Refused, OrdersOf, RestingOk;
      ghost var b, o := BookOf(), order.View();
      ValidSides();
      var refused := MustRefuse(order);
      if refused {
        Finish(order, Rejected);
        MatchRefused(b, o);
        return [];
      }
      var stopped;
      trades, stopped := TakeLiquidity(order);
      ghost var b1, t := BookOf(), order.View();
      MatchAccepted(b, o, b1, t, trades, stopped);
      if !stopped && order.filled < order.qty && order.tif == IOC {
        Finish(order, Cancelled);
      } else if !stopped && order.filled < order.qty && order.otype == Limit {
        AddOrderToBookDirect(order);
      } else {
        Finish(order, order.status);
      }
    }

    lemma ValidSides()
      requires Valid()
      ensures SideInv(BookOf().bids, Buy) && SideInv(BookOf().asks, Sell)
    {}

    /** One of the launched matches of triggered stops runs. */
    method RunPending(i: nat) returns (trades: seq<Trade>)
      requires Valid() && i < |pending| && OrderOk(pending[i].View())
      modifies this, pending[i], OrdersOf(bids), OrdersOf(asks), stopOrders
      ensures Valid()
      ensures
        var m := Match(BookInvariant.Launch(old(BookOf()), i), old(pending[i].View()));
        BookOf() == m.book && trades == m.trades && old(pending[i]).View() == m.order
    {
      var order := pending[i];
      TakePending(i);
      trades := MatchOrder(order);
    }

    method TakePending(i: nat)
      requires Valid() && i < |pending|
      modifies this`pending, pending[i]
      ensures Valid() && old(pending[i]).place == Nowhere && old(pending[i]).View() == old(pending[i].View())
      ensures BookOf() == BookInvariant.Launch(old(BookOf()), i)
    {
      PendingApart(i);
      hide Valid, BookOf, Remove;
      var order := pending[i];
      DropPending(i);
      Release(order);
    }

    method DropPending(i: nat)
      requires Valid() && i < |pending|
      modifies this`pending
      ensures Valid() && BookOf() == BookInvariant.Launch(old(BookOf()), i)
      ensures pending == Remove(old(pending), i)
    {
      hide Views, Levels, SideOk;
      ViewsRemove(pending, i);
      pending := Remove(pending, i);
    }

    method Release(order: Order)
      requires Valid() && order !in OrdersOf(bids) && order !in OrdersOf(asks) && order !in stopOrders && order !in pending
      modifies order`place
      ensures Valid() && BookOf() == old(BookOf()) && order.place == Nowhere
    {
      hide Views, Levels, SideOk, WatchOk;
      order.place := Nowhere;
    }

    /** The router takes an order back that it has just cancelled, to try it elsewhere. */
    ghost method Reclaim(order: Order)
      requires Valid() && (order.place == Booked || order.place == Done)
      requires !HasLevel(BookOf().bids, order.id) && !HasLevel(BookOf().asks, order.id)
      modifies order`place
      ensures Valid() && BookOf() == old(BookOf()) && order.place == Nowhere
    {
      hide Views, Levels, SideOk;
      if order in OrdersOf(bids) { Present(bids, order); }
      if order in OrdersOf(asks) { Present(asks, order); }
      order.place := Nowhere;
    }

    lemma PendingApart(i: nat)
      requires Valid() && i < |pending|
      ensures pending[i] !in OrdersOf(bids) && pending[i] !in OrdersOf(asks) && pending[i] !in stopOrders
      ensures pending[i] !in Remove(pending, i)
    {
      hide Views, Levels;
    }

    /** Search the armed stops. */
    method FindStop(id: string) returns (found: bool, i: nat)
      requires Valid()
      ensures Valid() && BookOf() == old(BookOf())
      ensures found == Has(BookOf().watch.stops, id)
      ensures found ==> i < |stopOrders| && stopOrders[i].id == id && forall k :: 0 <= k < i ==> stopOrders[k].id != id
    {
      hide Views, Levels, SideOk, WatchOk;
      i := 0;
      assert forall o :: o in OrdersOf(bids) ==> allocated(o);
      assert forall o :: o in OrdersOf(asks) ==> allocated(o);
      ghost var b := BookOf();
      while i < |stopOrders|
        invariant 0 <= i <= |stopOrders|
        invariant Valid() && BookOf() == b
        invariant forall k :: 0 <= k < i ==> stopOrders[k].id != id
      {
        if stopOrders[i].id == id { return true, i; }
        i := i + 1;
      }
      return false, i;
    }

    /** Drop the stop at index `i`. */
    method DropStop(i: nat)
      requires Valid() && i < |stopOrders|
      modifies this`stopOrders, this`sequenceNum
      ensures Valid() && stopOrders == Remove(old(stopOrders), i)
      ensures BookOf() == Bump(old(BookOf()).(watch := old(BookOf()).watch.(stops := Remove(old(BookOf()).watch.stops, i))))
    {
      hide Views, Levels, SideOk;
      stopOrders := Remove(stopOrders, i);
      sequenceNum := sequenceNum + 1;
      assert Views(stopOrders) == Remove(old(Views(stopOrders)), i);
    }

    method CancelStop(id: string) returns (found: bool)
      requires Valid()
      modifies this`stopOrders, this`sequenceNum
      ensures Valid() && found == Has(old(BookOf()).watch.stops, id)
      ensures bids == old(bids) && asks == old(asks)
      ensures BookOf() == if found then Book.Cancel(old(BookOf()), id).0 else old(BookOf())
    {
      hide Valid, BookOf;
      var i;
      found, i := FindStop(id);
      if found {
        ghost var stops := BookOf().watch.stops;
        StopIds(i, id);
        WithoutAt(stops, i, id);
        DropStop(i);
      }
    }

    lemma StopIds(i: nat, id: string)
      requires i < |stopOrders| && stopOrders[i].id == id && forall k :: 0 <= k < i ==> stopOrders[k].id != id
      ensures |BookOf().watch.stops| == |stopOrders| && BookOf().watch.stops[i].id == id
      ensures forall k :: 0 <= k < i ==> BookOf().watch.stops[k].id != id
    {
      hide Views, Levels;
    }

    method CancelBid(id: string) returns (found: bool)
      requires Valid()
      modifies this`bids, this`sequenceNum
      ensures Valid() && found == HasLevel(old(BookOf()).bids, id)
      ensures BookOf() == if found then Bump(old(BookOf()).(bids := WithoutLevel(old(BookOf()).bids, id))) else old(BookOf())
      ensures OrdersOf(bids) <= old(OrdersOf(bids))
    {
      hide Views, Levels, SideOk, WatchOk, WatchView, HasLevel, WithoutLevel;
      ghost var m, o := bids, asks;
      assert forall x :: x in OrdersOf(m) ==> allocated(x);
      assert forall x :: x in OrdersOf(o) ==> allocated(x);
      var levels;
      levels, found := RemoveFromLimits(bids, id, Buy);
      assert SideOk(m, Buy) && SideOk(o, Sell);
      assert Levels(m) == old(Levels(m)) && Levels(o) == old(Levels(o)) && WatchView() == old(WatchView());
      if found {
        SetBids(levels);
        NextSequence();
      }
    }

    method CancelAsk(id: string) returns (found: bool)
      requires Valid()
      modifies this`asks, this`sequenceNum
      ensures Valid() && found == HasLevel(old(BookOf()).asks, id)
      ensures BookOf() == if found then Bump(old(BookOf()).(asks := WithoutLevel(old(BookOf()).asks, id))) else old(BookOf())
      ensures OrdersOf(asks) <= old(OrdersOf(asks))
    {
      hide Views, Levels, SideOk, WatchOk, WatchView, HasLevel, WithoutLevel;
      ghost var m, o := asks, bids;
      assert forall x :: x in OrdersOf(m) ==> allocated(x);
      assert forall x :: x in OrdersOf(o) ==> allocated(x);
      var levels;
      levels, found := RemoveFromLimits(asks, id, Sell);
      assert SideOk(m, Sell) && SideOk(o, Buy);
      assert Levels(m) == old(Levels(m)) && Levels(o) == old(Levels(o)) && WatchView() == old(WatchView());
      if found {
        SetAsks(levels);
        NextSequence();
      }
    }

    /** Cancel by identifier: the armed stops first, then the bids, then the asks. */
    method CancelOrder(id: string) returns (cancelled: bool)
      requires Valid()
      modifies this
      ensures Valid() && (BookOf(), cancelled) == Book.Cancel(old(BookOf()), id)
      ensures OrdersOf(bids) + OrdersOf(asks) <= old(OrdersOf(bids) + OrdersOf(asks))
    {
      hide Valid, BookOf, OrdersOf;
      cancelled := CancelStop(id);
      if !cancelled {
        cancelled := CancelBid(id);
        if !cancelled {
          cancelled := CancelAsk(id);
        }
      }
    }

    /** Register an untriggered stop order. */
    method AddStopOrder(order: Order)
      requires Valid() && order.place == Nowhere
      modifies this`stopOrders, order`place
      ensures Valid() && order.place == Armed && stopOrders == old(stopOrders) + [order]
      ensures BookOf() == AddStop(old(BookOf()), order.View())
    {
      hide Views, Levels, SideOk;
      StrangerApart(order);
      order.place := Armed;
      stopOrders := stopOrders + [order];
      assert Views(stopOrders) == old(Views(stopOrders)) + [order.View()];
    }

    method SetSTPMode(m: STPMode)
      requires Valid()
      modifies this`mode
      ensures Valid() && BookOf() == old(BookOf()).(mode := m)
    {
      hide Views, Levels, SideOk, WatchOk;
      mode := m;
    }
  }

  /** An order on a side has its name on a level of that side. */
  lemma Present(ls: seq<MatchLimit>, order: Order)
    requires order in OrdersOf(ls)
    ensures HasLevel(Levels(ls), order.id)
  {
    hide Views, Levels;
    var l :| l in ls && order in l.orders;
    var i :| 0 <= i < |ls| && ls[i] == l;
    var k :| 0 <= k < |l.orders| && l.orders[k] == order;
    assert Levels(ls)[i].orders[k].id == order.id;
    assert Has(Levels(ls)[i].orders, order.id);
  }

  /** The effect of the matching phase on the book, the order and the trades. */
  predicate Swept(b: BookView, o: OrderView, b': BookView, o': OrderView, trades: seq<Trade>, stopped: bool) {
    var s := SweepLevels(b.mode, o, b.On(o.side.Opposite()));
    b' == b.With(o.side.Opposite(), s.levels).(watch := Ripple(b.watch, s.fills)) &&
    o' == s.taker && stopped == s.stopped && trades == TradesOf(o, s.fills, b.watch.number)
  }

  lemma MatchRefused(b: BookView, o: OrderView)
    requires Refused(b, o)
    ensures Match(b, o) == Matched(b, o.(status := Rejected), [])
  {}

  /** What remains to be done after the matching phase of an accepted order. */
  lemma MatchAccepted(b: BookView, o: OrderView, b1: BookView, t: OrderView, trades: seq<Trade>, stopped: bool)
    requires !Refused(b, o) && OrderOk(o) && SideInv(b.bids, Buy) && SideInv(b.asks, Sell)
    requires Swept(b, o, b1, t, trades, stopped)
    ensures Match(b, o) ==
      if !stopped && t.filled < t.qty && t.tif == IOC then Matched(b1, t.(status := Cancelled), trades)
      else if !stopped && t.filled < t.qty && t.otype == Limit then Matched(Rest(b1, t), t, trades)
      else Matched(b1, t, trades)
    ensures t.filled < t.qty && t.otype == Limit ==> RestingOk(t, t.side, t.price)
    ensures t.(status := t.status) == t
  {
    SweptSide(b.mode, o, b.On(o.side.Opposite()));
  }

  /** The fill-or-kill check: walk the crossing levels until enough quantity has been seen. */
  method IsFok(order: Order, limits: seq<MatchLimit>) returns (fails: bool)
    requires SideOk(limits, order.side.Opposite())
    ensures fails == FokFails(old(order.View()), old(Levels(limits)))
  {
    hide Views, Levels, SideOk, SideInv, FokFails, Crosses, Flat, Short;
    ghost var t, all := order.View(), Levels(limits);
    SideParts(limits, order.side.Opposite());
    if order.tif != FOK {
      NotFok(t, all);
      return false;
    }
    ShortIsFok(t, all);
    var need := order.qty - order.filled;
    var seen := 0.0;
    var i := 0;
    assert all[0..] == all;
    while i < |limits| && Crosses(order.View(), limits[i].price)
      invariant 0 <= i <= |limits|
      invariant order.View() == t && Levels(limits) == all
      invariant Short(t, need, 0.0, Flat(all)) == Short(t, need, seen, Flat(all[i..]))
    {
      LevelCrosses(t, all, i);
      ghost var queue, tail := all[i].orders, Flat(all[i + 1..]);
      assert all[i] == LevelView(limits[i]);
      FlatFrom(all, i);
      var j := 0;
      assert queue[0..] == queue;
      while j < |limits[i].orders|
        invariant 0 <= j <= |limits[i].orders|
        invariant order.View() == t && Levels(limits) == all && Views(limits[i].orders) == queue
        invariant Short(t, need, 0.0, Flat(all)) == Short(t, need, seen, queue[j..] + tail)
      {
        var ord := limits[i].orders[j];
        ShortStep(t, need, seen, queue, j, tail);
        seen := seen + (ord.qty - ord.filled);
        if seen >= need {
          return false;
        }
        j := j + 1;
      }
      assert queue[j..] + tail == tail;
      i := i + 1;
    }
    ShortEnd(t, need, seen, all, i);
    return true;
  }

  lemma FlatFrom(levels: seq<Level>, i: nat)
    requires i < |levels|
    ensures Flat(levels[i..]) == levels[i].orders + Flat(levels[i + 1..])
  {
    assert levels[i..][1..] == levels[i + 1..];
  }

  /** Search a side for an order and take it out, together with its level if that is now empty. */
  method RemoveFromLimits(limits: seq<MatchLimit>, id: string, side: Side) returns (limits': seq<MatchLimit>, found: bool)
    requires SideOk(limits, side)
    ensures SideOk(limits', side) && OrdersOf(limits') <= OrdersOf(limits)
    ensures found == HasLevel(Levels(limits), id)
    ensures Levels(limits') == if found then WithoutLevel(Levels(limits), id) else Levels(limits)
  {
    hide Views, Levels, SideInv;
    ghost var all := Levels(limits);
    var i := 0;
    while i < |limits|
      invariant 0 <= i <= |limits|
      invariant SideOk(limits, side) && Levels(limits) == all
      invariant forall k :: 0 <= k < i ==> !Has(all[k].orders, id)
    {
      var orders := limits[i].orders;
      ghost var queue := all[i].orders;
      var j := 0;
      while j < |orders|
        invariant 0 <= j <= |orders|
        invariant SideOk(limits, side) && Levels(limits) == all
        invariant forall k :: 0 <= k < j ==> queue[k].id != id
      {
        if orders[j].id == id {
          Removed(limits, i, j, id, side);
          return TakeOut(limits, i, j), true;
        }
        j := j + 1;
      }
      i := i + 1;
    }
    return limits, false;
  }

  /** The side after the order at `(i, j)` is taken out. */
  function TakeOut(ls: seq<MatchLimit>, i: nat, j: nat): seq<MatchLimit>
    requires i < |ls| && j < |ls[i].orders|
  {
    var left := Remove(ls[i].orders, j);
    if left == [] then Remove(ls, i) else ls[i := MatchLimit(ls[i].price, left)]
  }

  lemma Removed(ls: seq<MatchLimit>, i: nat, j: nat, id: string, side: Side)
    requires SideOk(ls, side) && i < |ls| && j < |ls[i].orders|
    requires forall k :: 0 <= k < i ==> !Has(Levels(ls)[k].orders, id)
    requires Levels(ls)[i].orders[j].id == id && forall k :: 0 <= k < j ==> Levels(ls)[i].orders[k].id != id
    ensures SideOk(TakeOut(ls, i, j), side) && OrdersOf(TakeOut(ls, i, j)) <= OrdersOf(ls)
    ensures HasLevel(Levels(ls), id) && Levels(TakeOut(ls, i, j)) == WithoutLevel(Levels(ls), id)
  {
    hide Views, Levels, SideOk, SideInv, WithoutLevel, Without;
    SideParts(ls, side);
    TakeOutOrders(ls, i, j);
    TakeOutLevels(ls, i, j, id);
    WithoutLevelKeeps(Levels(ls), id, side);
    SideWhole(TakeOut(ls, i, j), side);
  }

  lemma TakeOutOrders(ls: seq<MatchLimit>, i: nat, j: nat)
    requires Distinct(ls) && i < |ls| && j < |ls[i].orders|
    ensures Distinct(TakeOut(ls, i, j)) && OrdersOf(TakeOut(ls, i, j)) <= OrdersOf(ls)
  {
    var out, left := TakeOut(ls, i, j), Remove(ls[i].orders, j);
    MembersIn(ls);
    assert forall k :: 0 <= k < |left| ==> left[k] == ls[i].orders[if k < j then k else k + 1];
    if left == [] {
      assert forall k :: 0 <= k < |out| ==> out[k] == ls[if k < i then k else k + 1];
    }
    forall o | o in OrdersOf(out) ensures o in OrdersOf(ls) {
      var k := MemberOf(out, o);
    }
  }

  lemma LevelsRemove(ls: seq<MatchLimit>, i: nat)
    requires i < |ls|
    ensures Levels(Remove(ls, i)) == Remove(Levels(ls), i)
  {
    hide Views, Levels, Remove;
    var vs, ws := Levels(ls), Levels(Remove(ls, i));
    RemoveLength(ls, i);
    RemoveLength(vs, i);
    forall k | 0 <= k < |ws| ensures ws[k] == Remove(vs, i)[k] {
      RemoveAt(ls, i, k);
      RemoveAt(vs, i, k);
    }
  }

  lemma LevelsUpdate(ls: seq<MatchLimit>, i: nat, l: MatchLimit)
    requires i < |ls|
    ensures Levels(ls[i := l]) == Levels(ls)[i := LevelView(l)]
  {
    hide Views, Levels;
  }

  lemma ViewsRemove(os: seq<Order>, j: nat)
    requires j < |os|
    ensures Views(Remove(os, j)) == Remove(Views(os), j)
  {
    hide Views, Remove;
    var vs, ws := Views(os), Views(Remove(os, j));
    RemoveLength(os, j);
    RemoveLength(vs, j);
    forall i | 0 <= i < |ws| ensures ws[i] == Remove(vs, j)[i] {
      RemoveAt(os, j, i);
      RemoveAt(vs, j, i);
    }
  }

  lemma RemoveLength<T>(q: seq<T>, j: nat)
    requires j < |q|
    ensures |Remove(q, j)| == |q| - 1
  {}

  lemma RemoveAt<T>(q: seq<T>, j: nat, i: nat)
    requires j < |q| && i < |q| - 1
    ensures |Remove(q, j)| == |q| - 1 && Remove(q, j)[i] == q[if i < j then i else i + 1]
  {}

  lemma TakeOutLevels(ls: seq<MatchLimit>, i: nat, j: nat, id: string)
    requires i < |ls| && j < |ls[i].orders|
    requires forall k :: 0 <= k < i ==> !Has(Levels(ls)[k].orders, id)
    requires Levels(ls)[i].orders[j].id == id && forall k :: 0 <= k < j ==> Levels(ls)[i].orders[k].id != id
    ensures HasLevel(Levels(ls), id) && Levels(TakeOut(ls, i, j)) == WithoutLevel(Levels(ls), id)
  {
    hide Views, Levels, WithoutLevel, Without, Has, HasLevel, Remove;
    var all, left := Levels(ls), Remove(ls[i].orders, j);
    WithoutAt(all[i].orders, j, id);
    WithoutLevelAt(all, i, id);
    ViewsRemove(ls[i].orders, j);
    LevelsRemove(ls, i);
    LevelsUpdate(ls, i, MatchLimit(ls[i].price, left));
  }

  lemma NotFok(t: OrderView, all: seq<Level>)
    requires !t.tif.FOK?
    ensures !FokFails(t, all)
  {}

  lemma SideParts(ls: seq<MatchLimit>, side: Side)
    requires SideOk(ls, side)
    ensures Distinct(ls) && SideInv(Levels(ls), side) && forall o :: o in OrdersOf(ls) ==> o.place == Booked
  {}

  lemma SideWhole(ls: seq<MatchLimit>, side: Side)
    requires Distinct(ls) && SideInv(Levels(ls), side) && forall o :: o in OrdersOf(ls) ==> o.place == Booked
    ensures SideOk(ls, side)
  {}

  lemma SideOfMember(ls: seq<MatchLimit>, side: Side, o: Order)
    requires SideOk(ls, side) && o in OrdersOf(ls)
    ensures o.side == side && o.place == Booked
  {
    hide Views, Levels;
    var k := MemberOf(ls, o);
    var j :| 0 <= j < |ls[k].orders| && ls[k].orders[j] == o;
    assert RestingOk(Levels(ls)[k].orders[j], side, ls[k].price);
  }

  /** Rest an order: join the level of its price or open a new level in price order. */
  method AddOrderToBook(order: Order, limits: seq<MatchLimit>, side: Side) returns (limits': seq<MatchLimit>)
    requires Distinct(limits) && order !in OrdersOf(limits)
    ensures Levels(limits') == Insert(Levels(limits), order.View(), side)
    ensures Distinct(limits') && OrdersOf(limits') == OrdersOf(limits) + {order}
  {
    hide Views, Levels;
    var i := 0;
    assert limits[0..] == limits;
    while i < |limits|
      invariant 0 <= i <= |limits|
      invariant Insert(Levels(limits), order.View(), side) == Levels(limits[..i]) + Insert(Levels(limits[i..]), order.View(), side)
    {
      if limits[i].price == order.price {
        limits' := limits[i := limits[i].(orders := limits[i].orders + [order])];
        JoinedOrders(limits, i, order);
        JoinedLevels(limits, i, order, side);
        return;
      }
      if Better(side, order.price, limits[i].price) {
        limits' := limits[..i] + [MatchLimit(order.price, [order])] + limits[i..];
        OpenedOrders(limits, i, order);
        OpenedLevels(limits, i, order, side);
        return;
      }
      PassLevel(limits, i, order.View(), side);
      i := i + 1;
    }
    limits' := limits[..i] + [MatchLimit(order.price, [order])] + limits[i..];
    OpenedOrders(limits, i, order);
    OpenedLevels(limits, i, order, side);
  }

  lemma PassLevel(ls: seq<MatchLimit>, i: nat, o: OrderView, side: Side)
    requires i < |ls| && ls[i].price != o.price && !Better(side, o.price, ls[i].price)
    ensures Levels(ls[..i]) + Insert(Levels(ls[i..]), o, side) == Levels(ls[..i + 1]) + Insert(Levels(ls[i + 1..]), o, side)
  {
    hide Views, Levels, Insert;
    var skipped := LevelView(ls[i]);
    assert ls[i..][1..] == ls[i + 1..];
    LevelsCons(ls[i..]);
    InsertPast(skipped, Levels(ls[i + 1..]), o, side);
    LevelsConcat(ls[..i], [ls[i]]);
    assert ls[..i + 1] == ls[..i] + [ls[i]];
    assert Levels([ls[i]]) == [skipped];
  }

  lemma InsertPast(l: Level, tail: seq<Level>, o: OrderView, side: Side)
    requires l.price != o.price && !Better(side, o.price, l.price)
    ensures Insert([l] + tail, o, side) == [l] + Insert(tail, o, side)
  {
    assert ([l] + tail)[1..] == tail;
  }

  lemma LevelsConcat(a: seq<MatchLimit>, b: seq<MatchLimit>)
    ensures Levels(a + b) == Levels(a) + Levels(b)
  {}

  lemma UpdateSplits<T>(q: seq<T>, i: nat, x: T)
    requires i < |q|
    ensures q[i := x] == q[..i] + ([x] + q[i + 1..])
  {}

  lemma JoinedLevels(ls: seq<MatchLimit>, i: nat, order: Order, side: Side)
    requires i < |ls| && ls[i].price == order.price
    ensures Levels(ls[i := ls[i].(orders := ls[i].orders + [order])]) ==
      Levels(ls[..i]) + Insert(Levels(ls[i..]), order.View(), side)
  {
    hide Views, Levels;
    var joined := ls[i].(orders := ls[i].orders + [order]);
    UpdateSplits(ls, i, joined);
    LevelsConcat(ls[..i], [joined] + ls[i + 1..]);
    JoinedTail(ls[i..], order, side);
    assert ls[i..][1..] == ls[i + 1..];
  }

  lemma JoinedTail(ls: seq<MatchLimit>, order: Order, side: Side)
    requires ls != [] && ls[0].price == order.price
    ensures Levels([ls[0].(orders := ls[0].orders + [order])] + ls[1..]) == Insert(Levels(ls), order.View(), side)
  {
    hide Views, Levels;
    var joined := ls[0].(orders := ls[0].orders + [order]);
    assert LevelView(joined).orders == Views(ls[0].orders) + [order.View()];
    LevelsConcat([joined], ls[1..]);
    LevelsCons(ls);
  }

  lemma OpenedLevels(ls: seq<MatchLimit>, i: nat, order: Order, side: Side)
    requires i <= |ls|
    requires i < |ls| ==> ls[i].price != order.price && Better(side, order.price, ls[i].price)
    ensures Levels(ls[..i] + [MatchLimit(order.price, [order])] + ls[i..]) ==
      Levels(ls[..i]) + Insert(Levels(ls[i..]), order.View(), side)
  {
    hide Views, Levels;
    assert Views([order]) == [order.View()];
    var newLevel := MatchLimit(order.price, [order]);
    assert LevelView(newLevel) == Level(order.price, [order.View()]);
    LevelsConcat(ls[..i] + [newLevel], ls[i..]);
    LevelsConcat(ls[..i], [newLevel]);
  }

  lemma MemberOf(ls: seq<MatchLimit>, o: Order) returns (k: nat)
    requires o in OrdersOf(ls)
    ensures k < |ls| && o in ls[k].orders
  {
    hide Views, Levels;
    k :| 0 <= k < |ls| && o in ls[k].orders;
  }

  lemma MembersIn(ls: seq<MatchLimit>)
    ensures forall k, o :: 0 <= k < |ls| && o in ls[k].orders ==> o in OrdersOf(ls)
  {
    hide Views, Levels;
    assert forall k :: 0 <= k < |ls| ==> ls[k] in ls;
  }

  lemma JoinedOrders(ls: seq<MatchLimit>, i: nat, order: Order)
    requires Distinct(ls) && order !in OrdersOf(ls) && i < |ls|
    ensures
      var limits' := ls[i := ls[i].(orders := ls[i].orders + [order])];
      Distinct(limits') && OrdersOf(limits') == OrdersOf(ls) + {order}
  {
    hide Views, Levels;
    var limits' := ls[i := ls[i].(orders := ls[i].orders + [order])];
    MembersIn(ls);
    MembersIn(limits');
    assert order in limits'[i].orders;
    forall o | o in OrdersOf(ls) ensures o in OrdersOf(limits') {
      var k := MemberOf(ls, o);
      assert o in limits'[k].orders;
    }
    forall o | o in OrdersOf(limits') ensures o in OrdersOf(ls) + {order} {
      var k := MemberOf(limits', o);
    }
  }

  lemma OpenedOrders(ls: seq<MatchLimit>, i: nat, order: Order)
    requires Distinct(ls) && order !in OrdersOf(ls) && i <= |ls|
    ensures
      var limits' := ls[..i] + [MatchLimit(order.price, [order])] + ls[i..];
      Distinct(limits') && OrdersOf(limits') == OrdersOf(ls) + {order}
  {
    hide Views, Levels;
    var limits' := ls[..i] + [MatchLimit(order.price, [order])] + ls[i..];
    MembersIn(ls);
    MembersIn(limits');
    assert limits'[i].orders == [order];
    forall o | o in OrdersOf(ls) ensures o in OrdersOf(limits') {
      var k := MemberOf(ls, o);
      assert limits'[if k < i then k else k + 1] == ls[k];
    }
    forall o | o in OrdersOf(limits') ensures o in OrdersOf(ls) + {order} {
      var k := MemberOf(limits', o);
      assert k == i || limits'[k] == ls[if k < i then k else k - 1];
    }
  }

  lemma LevelsCons(ls: seq<MatchLimit>)
    requires ls != []
    ensures Levels(ls) == [LevelView(ls[0])] + Levels(ls[1..])
    ensures OrdersOf(ls) == (set o | o in ls[0].orders) + OrdersOf(ls[1..])
  {
    hide Views, Levels;
    forall k | 0 <= k < |ls| ensures Levels(ls)[k] == ([LevelView(ls[0])] + Levels(ls[1..]))[k] {
      if k > 0 { assert ls[k] == ls[1..][k - 1]; }
    }
    forall o | o in OrdersOf(ls) ensures o in ls[0].orders || o in OrdersOf(ls[1..]) {
      var k :| 0 <= k < |ls| && o in ls[k].orders;
      if k > 0 { assert ls[k] == ls[1..][k - 1]; }
    }
  }

  /** A side taken apart: its best level, and other levels with other orders. */
  lemma BestApart(ls: seq<MatchLimit>, side: Side)
    requires SideOk(ls, side) && ls != []
    ensures LimitOk(ls[0], side) && SideOk(ls[1..], side)
    ensures forall o :: o in OrdersOf(ls[1..]) ==> o !in ls[0].orders && o.place == Booked
  {
    hide Views, Levels;
    LevelsCons(ls);
    forall o | o in OrdersOf(ls[1..]) ensures o !in ls[0].orders {
      var k :| 0 <= k < |ls[1..]| && o in ls[1..][k].orders;
      assert ls[1..][k] == ls[k + 1];
    }
  }

  lemma ConsInv(l: Level, tail: seq<Level>, side: Side)
    requires LevelOk(l, side) && SideInv(tail, side)
    requires forall k :: 0 <= k < |tail| ==> Better(side, l.price, tail[k].price)
    ensures SideInv([l] + tail, side)
  {}

  lemma ShrinkBest(best: MatchLimit, ls: seq<MatchLimit>)
    requires ls != [] && NoDup(best.orders) && Distinct(ls)
    requires forall k :: 0 <= k < |best.orders| ==> best.orders[k] in ls[0].orders
    ensures Distinct([best] + ls[1..])
  {
    hide Views, Levels;
    var whole := [best] + ls[1..];
    assert forall k :: 1 <= k < |whole| ==> whole[k] == ls[k];
  }

  /** And put together again, with the best level changed. */
  lemma BestBack(best: MatchLimit, ls: seq<MatchLimit>, side: Side)
    requires ls != [] && LimitOk(best, side) && SideOk(ls[1..], side) && Distinct(ls)
    requires forall k :: 1 <= k < |ls| ==> Better(side, best.price, ls[k].price)
    requires forall k :: 0 <= k < |best.orders| ==> best.orders[k] in ls[0].orders
    ensures SideOk([best] + ls[1..], side)
    ensures Levels([best] + ls[1..]) == [LevelView(best)] + Levels(ls[1..])
    ensures OrdersOf([best] + ls[1..]) <= OrdersOf(ls)
  {
    hide Views, Levels;
    var whole := [best] + ls[1..];
    assert whole[1..] == ls[1..];
    LevelsCons(whole);
    LevelsCons(ls);
    ShrinkBest(best, ls);
    ConsInv(LevelView(best), Levels(ls[1..]), side);
  }

  /** Cancel what the mode says: the incoming order, the head of the level, or both. */
  method PreventSelfTrade(mode: STPMode, order: Order, limit: MatchLimit) returns (limit': MatchLimit)
    requires LimitOk(limit, order.side.Opposite()) && limit.orders != [] && order.place == Nowhere && mode != Allow
    modifies order`status, limit.orders[0]
    ensures LimitOk(limit', order.side.Opposite())
    ensures order.View() == if mode == CancelOldest then old(order.View()) else old(order.View()).(status := Cancelled)
    ensures limit' == if mode == CancelNewest then limit else limit.(orders := limit.orders[1..])
    ensures Views(limit'.orders) == if mode == CancelNewest then old(Views(limit.orders)) else old(Views(limit.orders))[1..]
    ensures mode != CancelNewest ==> limit.orders[0].View() == old(limit.orders[0].View()).(status := Cancelled)
  {
    hide Views, Levels;
    limit' := limit;
    if mode != CancelNewest {
      var head := limit.orders[0];
      head.status := Cancelled;
      head.place := Done;
      limit' := limit.(orders := limit.orders[1..]);
    }
    if mode != CancelOldest {
      order.status := Cancelled;
    }
  }

  method FillBoth(order: Order, head: Order) returns (amount: real)
    requires order != head
    modifies order, head
    ensures amount == Min(old(order.View()).Open(), old(head.View()).Open())
    ensures order.View() == old(order.View()).Take(amount) && head.View() == old(head.View()).Take(amount)
    ensures order.place == old(order.place) && head.place == old(head.place)
  {
    amount := Min(order.qty - order.filled, head.qty - head.filled);
    order.Fill(amount);
    head.Fill(amount);
  }

  /** Trade the incoming order against the head of a level; a filled head leaves the level. */
  method FillHead(order: Order, limit: MatchLimit) returns (limit': MatchLimit, amount: real)
    requires LimitOk(limit, order.side.Opposite()) && limit.orders != [] && order.place == Nowhere && order.filled < order.qty
    modifies order, limit.orders[0]
    ensures LimitOk(limit', order.side.Opposite()) && order.place == Nowhere
    ensures amount == Min(old(order.View()).Open(), old(limit.orders[0].View()).Open())
    ensures order.View() == old(order.View()).Take(amount)
    ensures
      var head := limit.orders[0];
      head.View() == old(limit.orders[0].View()).Take(amount) &&
      if head.filled == head.qty
      then head.place == Done && limit' == limit.(orders := limit.orders[1..]) &&
           Views(limit'.orders) == old(Views(limit.orders))[1..]
      else limit' == limit && Views(limit'.orders) == [head.View()] + old(Views(limit.orders))[1..]
  {
    hide Views, Levels;
    var head := limit.orders[0];
    ghost var queue := Views(limit.orders);
    amount := FillBoth(order, head);
    limit' := limit;
    if head.filled == head.qty {
      head.place := Done;
      limit' := limit.(orders := limit.orders[1..]);
      assert Views(limit'.orders) == queue[1..];
    } else {
      assert Views(limit'.orders) == [head.View()] + queue[1..];
    }
    HeadLevel(limit.price, queue, head.View(), order.side.Opposite());
  }

  /** A level stays well-formed without its head, or with its head partly filled. */
  lemma HeadLevel(price: real, q: seq<OrderView>, head: OrderView, side: Side)
    requires q != [] && LevelOk(Level(price, q), side)
    requires head == q[0].Take(head.filled - q[0].filled) && q[0].filled <= head.filled
    ensures LevelOk(Level(price, q[1..]), side)
    ensures head.filled < head.qty ==> LevelOk(Level(price, [head] + q[1..]), side)
  {
    hide Views, Levels;
    assert RestingOk(q[0], side, price);
  }

  // ---------------------------------------------------------------------------
  // Filtering the stops
  // ---------------------------------------------------------------------------

  /** `a` and `b` are disjoint, duplicate-free selections of `q`. */
  predicate Picked<T(==)>(q: seq<T>, a: seq<T>, b: seq<T>) {
    NoDup(a) && NoDup(b) &&
    (forall k :: 0 <= k < |a| ==> a[k] in q && a[k] !in b) &&
    forall k :: 0 <= k < |b| ==> b[k] in q
  }

  lemma PickOne<T>(q: seq<T>, i: nat, a: seq<T>, b: seq<T>)
    requires NoDup(q) && i < |q| && Picked(q[..i], a, b)
    ensures Picked(q[..i + 1], a + [q[i]], b) && Picked(q[..i + 1], a, b + [q[i]])
  {
    hide Views, Levels;
    assert q[i] !in q[..i];
    assert forall x :: x in q[..i] ==> x in q[..i + 1];
    assert q[..i + 1][i] == q[i];
    assert forall k :: 0 <= k < |b| ==> b[k] != q[i];
  }

  /** The filtering loop: which stops a price triggers and which it leaves armed. */
  method SplitStops(stops: seq<Order>, price: real) returns (triggered: seq<Order>, remaining: seq<Order>)
    requires NoDup(stops)
    ensures Picked(stops, triggered, remaining)
    ensures Views(remaining) == Kept(Views(stops), price)
    ensures AsLimits(Views(triggered)) == Fired(Views(stops), price)
  {
    hide Views, Levels;
    triggered, remaining := [], [];
    ghost var vs := Views(stops);
    var i := 0;
    assert vs[0..] == vs;
    while i < |stops|
      invariant 0 <= i <= |stops|
      invariant Views(remaining) + Kept(vs[i..], price) == Kept(vs, price)
      invariant AsLimits(Views(triggered)) + Fired(vs[i..], price) == Fired(vs, price)
      invariant Picked(stops[..i], triggered, remaining)
    {
      var ord := stops[i];
      PickOne(stops, i, triggered, remaining);
      SplitOne(vs, i, price, Views(remaining), AsLimits(Views(triggered)));
      var isTakeProfit := ord.otype == TakeProfit || ord.otype == TakeProfitLimit;
      var isTriggered := false;
      if isTakeProfit {
        if ord.side == Buy && price <= ord.price {
          isTriggered := true;
        } else if ord.side == Sell && price >= ord.price {
          isTriggered := true;
        }
      } else {
        if ord.side == Buy && price >= ord.price {
          isTriggered := true;
        } else if ord.side == Sell && price <= ord.price {
          isTriggered := true;
        }
      }
      if isTriggered {
        assert AsLimits(Views(triggered + [ord])) == AsLimits(Views(triggered)) + [vs[i].(otype := Limit)];
        triggered := triggered + [ord];
      } else {
        assert Views(remaining + [ord]) == Views(remaining) + [vs[i]];
        remaining := remaining + [ord];
      }
      i := i + 1;
    }
    assert stops[..i] == stops;
  }

  /** One step of the filter, on values. */
  lemma SplitOne(vs: seq<OrderView>, i: nat, price: real, kept: seq<OrderView>, fired: seq<OrderView>)
    requires i < |vs|
    ensures if Triggers(vs[i], price)
      then Kept(vs[i..], price) == Kept(vs[i + 1..], price) &&
           fired + Fired(vs[i..], price) == (fired + [vs[i].(otype := Limit)]) + Fired(vs[i + 1..], price)
      else kept + Kept(vs[i..], price) == (kept + [vs[i]]) + Kept(vs[i + 1..], price) &&
           Fired(vs[i..], price) == Fired(vs[i + 1..], price)
  {
    hide Views, Levels;
    assert vs[i..][1..] == vs[i + 1..];
  }

  function AsLimits(q: seq<OrderView>): seq<OrderView> {
    seq(|q|, i requires 0 <= i < |q| => q[i].(otype := Limit))
  }
}
