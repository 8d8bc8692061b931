/** The register of orders agrees with the book: filled quantities, stages and the trade history. */
module OmsAgreement {
  import opened Book
  import opened Priority
  import opened BookInvariant
  import opened Modifiers
  import opened BookQueues
  import opened Accounts
  import opened Execution
  import opened OmsState
  import opened Desk
  import opened DeskRuns
  import opened DeskQueues

  /** The record of a resting order says what the book says. */
  predicate Linked(rec: OmsOrder, r: OrderView) {
    rec.id == r.id && rec.user == r.user && rec.side == r.side && rec.price == r.price &&
    rec.qty == r.qty && rec.filled == r.filled && rec.postOnly == r.postOnly &&
    (rec.stage.Queued? || rec.stage.PartFilled?)
  }

  predicate AllLinked(orders: Register, q: seq<OrderView>) {
    forall i :: 0 <= i < |q| ==> q[i].id in orders && Linked(orders[q[i].id], q[i])
  }

  // ---------------------------------------------------------------------------
  // Identifiers
  // ---------------------------------------------------------------------------

  /** No identifier rests twice. */
  ghost predicate Unique(b: BookView) {
    forall id :: Ids(b.Queue(Buy))[id] + Ids(b.Queue(Sell))[id] <= 1
  }

  lemma {:induction false} IdsMember(q: seq<OrderView>, i: nat)
    requires i < |q|
    ensures Ids(q)[q[i].id] >= 1
    decreases |q|
  {
    if i > 0 { IdsMember(q[1..], i - 1); }
  }

  lemma {:induction false} IdsAbsent(q: seq<OrderView>, id: string)
    requires forall i :: 0 <= i < |q| ==> q[i].id != id
    ensures Ids(q)[id] == 0
    decreases |q|
  {
    if q != [] { IdsAbsent(q[1..], id); }
  }

  lemma {:induction false} UniqueDistinct(q: seq<OrderView>)
    requires forall id :: Ids(q)[id] <= 1
    ensures DistinctIds(q)
    decreases |q|
  {
    if q != [] {
      assert forall id :: Ids(q[1..])[id] <= Ids(q)[id];
      UniqueDistinct(q[1..]);
      forall j | 1 <= j < |q| ensures q[0].id != q[j].id {
        IdsMember(q[1..], j - 1);
        assert q[1..][j - 1] == q[j];
      }
    }
  }

  lemma {:induction false} SameIds(a: seq<OrderView>, b: seq<OrderView>)
    requires |a| == |b| && forall i :: 0 <= i < |a| ==> a[i].id == b[i].id
    ensures Ids(a) == Ids(b)
    decreases |a|
  {
    if a != [] { SameIds(a[1..], b[1..]); }
  }

  /** Sweeping never adds identifiers. */
  lemma SweepIds(mode: STPMode, t: OrderView, q: seq<OrderView>, id: string)
    requires AllOpen(q) && DistinctIds(q)
    ensures Ids(Sweep(mode, t, q).queue)[id] <= Ids(q)[id]
  {
    var o := Sweep(mode, t, q);
    SweepKeepsCount(mode, t, q);
    forall i | 0 <= i < |q| ensures After(o)[i].id == q[i].id {
      RestingConserved(mode, t, q, i);
    }
    SameIds(After(o), q);
    IdsConcat(o.gone, o.queue);
  }

  // ---------------------------------------------------------------------------
  // Bookkeeping after the trades
  // ---------------------------------------------------------------------------

  predicate Positive(fills: seq<Fill>) {
    forall k :: 0 <= k < |fills| ==> fills[k].qty > 0.0
  }

  lemma {:induction false} PositiveSum(fills: seq<Fill>, id: string)
    requires Positive(fills)
    ensures FilledOn(fills, id) >= 0.0
    decreases |fills|
  {
    if fills != [] {
      assert Positive(fills[1..]);
      PositiveSum(fills[1..], id);
    }
  }

  /** The stage of a maker after it gained `gain`. */
  function MakerStage(rec: OmsOrder, gain: real): Stage {
    if gain == 0.0 then rec.stage else if rec.filled + gain >= rec.qty then FullyFilled else PartFilled
  }

  /** One fill booked on a maker's record. */
  lemma MakerStep(orders: Register, t: OrderView, f: Fill, n: nat, id: string)
    requires f.qty > 0.0
    requires f.makerId == id && id in orders ==> orders[id].stage.Queued? || orders[id].stage.PartFilled?
    ensures
      var next := SyncMaker(orders, t.side, TradeOf(t, f, n));
      var gain := if f.makerId == id then f.qty else 0.0;
      (id in next <==> id in orders) &&
      (id in orders ==> next[id] == orders[id].(filled := orders[id].filled + gain, stage := MakerStage(orders[id], gain)))
  {}

  lemma SyncFirst(orders: Register, t: OrderView, fills: seq<Fill>, n: nat)
    requires fills != []
    ensures SyncMakers(orders, t.side, TradesOf(t, fills, n)) ==
      SyncMakers(SyncMaker(orders, t.side, TradeOf(t, fills[0], n + 1)), t.side, TradesOf(t, fills[1..], n + 1))
  {
    var rest := TradesOf(t, fills[1..], n + 1);
    assert TradesOf(t, fills, n) == [TradeOf(t, fills[0], n + 1)] + rest;
    assert TradesOf(t, fills, n)[1..] == rest;
  }

  /** A maker's record gains exactly its fills, and becomes filled exactly when they complete it. */
  lemma {:induction false} MakerSynced(orders: Register, t: OrderView, fills: seq<Fill>, n: nat, id: string)
    requires id in orders && Positive(fills)
    requires orders[id].stage.Queued? || orders[id].stage.PartFilled?
    requires orders[id].filled < orders[id].qty && orders[id].filled + FilledOn(fills, id) <= orders[id].qty
    ensures
      var after := SyncMakers(orders, t.side, TradesOf(t, fills, n));
      var gain := FilledOn(fills, id);
      id in after && after[id] == orders[id].(filled := orders[id].filled + gain, stage := MakerStage(orders[id], gain))
    decreases |fills|
  {
    hide SyncMaker, SyncMakers, TradesOf, TradeOf;
    if fills == [] {
      NoMakers(orders, t, n);
    } else {
      var next := SyncMaker(orders, t.side, TradeOf(t, fills[0], n + 1));
      SyncFirst(orders, t, fills, n);
      assert Positive(fills[1..]) && fills[0].qty > 0.0;
      PositiveSum(fills[1..], id);
      MakerStep(orders, t, fills[0], n + 1, id);
      if fills[0].makerId == id && next[id].filled >= next[id].qty {
        MakerDone(next, t, fills[1..], n + 1, id);
      } else {
        MakerSynced(next, t, fills[1..], n + 1, id);
      }
    }
  }

  lemma NoMakers(orders: Register, t: OrderView, n: nat)
    ensures SyncMakers(orders, t.side, TradesOf(t, [], n)) == orders
  {}

  /** A record on which nothing more is filled does not change. */
  lemma {:induction false} MakerDone(orders: Register, t: OrderView, fills: seq<Fill>, n: nat, id: string)
    requires Positive(fills) && FilledOn(fills, id) <= 0.0
    ensures
      var after := SyncMakers(orders, t.side, TradesOf(t, fills, n));
      (id in after <==> id in orders) && (id in orders ==> after[id] == orders[id])
    decreases |fills|
  {
    hide SyncMaker, SyncMakers, TradesOf, TradeOf;
    if fills == [] {
      NoMakers(orders, t, n);
    } else {
      SyncFirst(orders, t, fills, n);
      assert Positive(fills[1..]) && fills[0].qty > 0.0;
      PositiveSum(fills[1..], id);
      MakerStep(orders, t, fills[0], n + 1, id);
      MakerDone(SyncMaker(orders, t.side, TradeOf(t, fills[0], n + 1)), t, fills[1..], n + 1, id);
    }
  }

  // ---------------------------------------------------------------------------
  // The trade history
  // ---------------------------------------------------------------------------

  function QtyOn(t: Trade, id: string): real {
    if t.buyOrderId == id || t.sellOrderId == id then t.qty else 0.0
  }

  /** The quantity traded by an order over a history. */
  function Traded(history: seq<Trade>, id: string): real {
    if history == [] then 0.0 else QtyOn(history[0], id) + Traded(history[1..], id)
  }

  lemma {:induction false} TradedConcat(a: seq<Trade>, b: seq<Trade>, id: string)
    ensures Traded(a + b, id) == Traded(a, id) + Traded(b, id)
    decreases |a|
  {
    if a == [] {
      assert a + b == b;
    } else {
      assert (a + b)[1..] == a[1..] + b;
      TradedConcat(a[1..], b, id);
    }
  }

  /** On the trades of a match, the taker traded everything and each maker its fills. */
  lemma {:induction false} TradedLocal(t: OrderView, fills: seq<Fill>, n: nat, id: string)
    requires forall k :: 0 <= k < |fills| ==> fills[k].makerId != t.id
    ensures Traded(TradesOf(t, fills, n), id) == if id == t.id then FillSum(fills) else FilledOn(fills, id)
    decreases |fills|
  {
    if fills != [] {
      TradedLocal(t, fills[1..], n + 1, id);
      var rest := TradesOf(t, fills[1..], n + 1);
      assert ([TradeOf(t, fills[0], n + 1)] + rest)[1..] == rest;
    }
  }

  predicate Pseudo(id: string) { id == "ext_sell_order_binance" || id == "ext_buy_order_binance" }

  lemma {:induction false} TradedExternal(t: OrderView, levels: seq<ExtLevel>, id: string)
    requires OrderOk(t) && !Pseudo(id) && !Pseudo(t.id)
    ensures
      var x := ExtSweep(t, levels);
      Traded(x.trades, id) == if id == t.id then x.order.filled - t.filled else 0.0
    decreases |levels|
  {
    if levels != [] && t.Open() > 0.0 && Crosses(t, levels[0].price) {
      var amount := Min(t.Open(), levels[0].qty);
      if amount <= 0.0 {
        TradedExternal(t, levels[1..], id);
      } else {
        var next := t.(filled := t.filled + amount,
                       status := if t.filled + amount >= t.qty then Filled else PartiallyFilled);
        TradedExternal(next, levels[1..], id);
        var rest := ExtSweep(next, levels[1..]);
        assert ([ExtTrade(t, levels[0], amount)] + rest.trades)[1..] == rest.trades;
      }
    }
  }

  /** An order's status after going out says whether it is complete. */
  lemma {:induction false} ExtStatus(t: OrderView, levels: seq<ExtLevel>)
    requires OrderOk(t)
    ensures
      var x := ExtSweep(t, levels);
      (x.trades == [] ==> x.order == t) &&
      (x.trades != [] ==> x.order.status == if x.order.filled == x.order.qty then Filled else PartiallyFilled)
    decreases |levels|
  {
    if levels != [] && t.Open() > 0.0 && Crosses(t, levels[0].price) {
      var amount := Min(t.Open(), levels[0].qty);
      if amount <= 0.0 {
        ExtStatus(t, levels[1..]);
      } else {
        ExtStatus(t.(filled := t.filled + amount,
                     status := if t.filled + amount >= t.qty then Filled else PartiallyFilled), levels[1..]);
      }
    }
  }

  // ---------------------------------------------------------------------------
  // The records after one submission
  // ---------------------------------------------------------------------------

  /** The register once a queued order has been matched and its trades booked. */
  function Booked(orders: Register, o: OmsOrder, b: BookView, a: Answers): Register {
    var all := MatchAll(b, LegacyOf(o), a);
    var queued := orders[o.id := o.(stage := Queued)];
    if all.trades == [] then queued
    else SyncMakers(SyncTaker(queued, o.id, all.order), o.side, Match(b, LegacyOf(o)).trades)
  }

  lemma {:induction false} SyncKeepsKeys(orders: Register, side: Side, trades: seq<Trade>)
    ensures SyncMakers(orders, side, trades).Keys == orders.Keys
    decreases |trades|
  {
    if trades != [] {
      var id := MakerId(side, trades[0]);
      assert SyncMaker(orders, side, trades[0]).Keys == orders.Keys;
      SyncKeepsKeys(SyncMaker(orders, side, trades[0]), side, trades[1..]);
    }
  }

  /** A swept maker is never overfilled. */
  lemma MakerBound(mode: STPMode, t: OrderView, q: seq<OrderView>, i: nat)
    requires AllOpen(q) && DistinctIds(q) && i < |q|
    ensures q[i].filled + FilledOn(Sweep(mode, t, q).fills, q[i].id) <= q[i].qty
  {
    var x := Sweep(mode, t, q);
    RestingConserved(mode, t, q, i);
    DeparturesExplained(mode, t, q);
    assert After(x)[i] == if i < |x.gone| then x.gone[i] else x.queue[i - |x.gone|];
  }

  lemma FillsPositive(mode: STPMode, t: OrderView, q: seq<OrderView>)
    requires AllOpen(q)
    ensures Positive(Sweep(mode, t, q).fills)
  {
    FillsAreFair(mode, t, q);
  }

  lemma FillsElsewhere(mode: STPMode, t: OrderView, q: seq<OrderView>, id: string)
    requires AllOpen(q) && Unnamed(q, id)
    ensures forall k :: 0 <= k < |Sweep(mode, t, q).fills| ==> Sweep(mode, t, q).fills[k].makerId != id
  {
    FillsAreFair(mode, t, q);
  }

  /** What is known when an accepted order of a fresh name meets the book. */
  ghost predicate Meets(orders: Register, o: OmsOrder, b: BookView) {
    SoundBook(b) && b.watch.stops == [] && Unique(b) &&
    AllLinked(orders, b.Queue(Buy)) && AllLinked(orders, b.Queue(Sell)) &&
    o.id !in orders && 0.0 <= o.filled < o.qty && !Refused(b, LegacyOf(o))
  }

  /** The queue an accepted order sweeps. */
  lemma MeetsQueue(orders: Register, o: OmsOrder, b: BookView)
    requires Meets(orders, o, b)
    ensures AllOpen(b.Queue(o.side.Opposite())) && DistinctIds(b.Queue(o.side.Opposite()))
    ensures Unnamed(b.Queue(Buy), o.id) && Unnamed(b.Queue(Sell), o.id) && OrderOk(LegacyOf(o))
    ensures AllLinked(orders, b.Queue(o.side.Opposite())) && AllLinked(orders, b.Queue(o.side))
  {
    hide Flat, Ids, Refused, BookInv, AllOk;
    SidesOk(b);
    FlatOpen(b.On(o.side.Opposite()), o.side.Opposite());
    UniqueDistinct(b.Queue(o.side.Opposite()));
  }

  function FillsOf(o: OmsOrder, b: BookView): seq<Fill> {
    Sweep(b.mode, LegacyOf(o), b.Queue(o.side.Opposite())).fills
  }

  predicate StillOpen(rec: OmsOrder) {
    rec.filled < rec.qty && (rec.stage.Queued? || rec.stage.PartFilled?)
  }

  /** A record that was there before gains exactly the fills made on its order. */
  lemma OtherBooked(orders: Register, o: OmsOrder, b: BookView, a: Answers, id: string)
    requires Meets(orders, o, b) && id in orders
    ensures
      var gain := FilledOn(FillsOf(o, b), id);
      var after := Booked(orders, o, b, a);
      id in after && after[id] == orders[id].(filled := orders[id].filled + gain, stage := MakerStage(orders[id], gain)) &&
      gain >= 0.0 && (gain > 0.0 ==> StillOpen(orders[id]) && orders[id].filled + gain <= orders[id].qty)
  {
    hide Match, MatchAll, Refused, Sweep, BookInv, Flat, SyncMakers, TradesOf, Unique, FilledOn, AllOk;
    MeetsQueue(orders, o, b);
    var t, q := LegacyOf(o), b.Queue(o.side.Opposite());
    var fills := FillsOf(o, b);
    var all := MatchAll(b, t, a);
    var ahead, behind := LocalQueues(b, t);
    FillsPositive(b.mode, t, q);
    PositiveSum(fills, id);
    var queued := orders[o.id := o.(stage := Queued)];
    var taken := SyncTaker(queued, o.id, all.order);
    TakerApart(queued, o.id, all.order, id);
    NoTradesNoFills(b, t, a, id);
    if i :| 0 <= i < |q| && q[i].id == id {
      MakerBound(b.mode, t, q, i);
      MakerSynced(taken, t, fills, b.watch.number, id);
    } else {
      StrangersUntouched(b.mode, t, q, id);
      MakerDone(taken, t, fills, b.watch.number, id);
    }
  }

  lemma TakerApart(orders: Register, id: string, o: OrderView, other: string)
    requires id in orders && other in orders && other != id
    ensures other in SyncTaker(orders, id, o) && SyncTaker(orders, id, o)[other] == orders[other]
  {}

  lemma NoTradesNoFills(b: BookView, t: OrderView, a: Answers, id: string)
    requires BookInv(b) && OrderOk(t) && !Refused(b, t)
    ensures MatchAll(b, t, a).trades == [] ==> FilledOn(Sweep(b.mode, t, b.Queue(t.side.Opposite())).fills, id) == 0.0
  {
    hide Match, Refused, Sweep, BookInv, Flat, ExtSweep;
    MatchQueues(b, t);
    TradesMirrorFills(t, Sweep(b.mode, t, b.Queue(t.side.Opposite())).fills, b.watch.number);
  }

  /** When something was traded, the status of the incoming order says whether it is complete. */
  lemma StatusTells(orders: Register, o: OmsOrder, b: BookView, a: Answers)
    requires Meets(orders, o, b)
    ensures
      var all := MatchAll(b, LegacyOf(o), a);
      if all.trades == [] then all.order.filled == o.filled
      else all.order.status.Filled? <==> all.order.filled == all.order.qty
  {
    hide Match, Refused, Sweep, BookInv, Flat, ExtSweep, AllOk, Ids, Allot, FillSum, Crossing, TradesOf;
    var t, q := LegacyOf(o), b.Queue(o.side.Opposite());
    MeetsQueue(orders, o, b);
    var m := Match(b, t);
    MatchOnQueue(b, t);
    SweepStatus(b.mode, t, q);
    SweepFilled(b.mode, t, q);
    LocalStatus(b, t);
    TradesMirrorFills(t, Sweep(b.mode, t, q).fills, b.watch.number);
    NoFillSum(Sweep(b.mode, t, q).fills);
    MatchSound(b, t);
    ExtStatus(m.order, a.external);
  }

  lemma NoFillSum(fills: seq<Fill>)
    ensures fills == [] ==> FillSum(fills) == 0.0
  {}

  lemma LocalStatus(b: BookView, t: OrderView)
    requires BookInv(b) && OrderOk(t) && !Refused(b, t)
    ensures SameTerms(t, Match(b, t).order)
  {
    MatchQueues(b, t);
  }

  /** The record of the incoming order. */
  lemma TakerBooked(orders: Register, o: OmsOrder, b: BookView, a: Answers)
    requires Meets(orders, o, b)
    ensures
      var all := MatchAll(b, LegacyOf(o), a).order;
      var after := Booked(orders, o, b, a);
      o.id in after && after[o.id] == o.(filled := all.filled, stage := after[o.id].stage) &&
      (after[o.id].stage.FullyFilled? <==> all.filled == all.qty) &&
      (after[o.id].stage.FullyFilled? || after[o.id].stage.Queued? || after[o.id].stage.PartFilled?)
  {
    hide Match, MatchAll, Refused, Sweep, BookInv, Flat, SyncMakers, TradesOf, Unique, FilledOn, AllOk, AllLinked;
    MeetsQueue(orders, o, b);
    var t, q := LegacyOf(o), b.Queue(o.side.Opposite());
    var all := MatchAll(b, t, a);
    var ahead, behind := LocalQueues(b, t);
    ahead, behind := AllQueues(b, t, a);
    StatusTells(orders, o, b, a);
    FillsPositive(b.mode, t, q);
    StrangersUntouched(b.mode, t, q, o.id);
    var queued := orders[o.id := o.(stage := Queued)];
    MakerDone(SyncTaker(queued, o.id, all.order), t, FillsOf(o, b), b.watch.number, o.id);
  }

  /** The trades of one submission, order by order. */
  lemma TradedAll(orders: Register, o: OmsOrder, b: BookView, a: Answers, id: string)
    requires Meets(orders, o, b) && !Pseudo(o.id) && !Pseudo(id)
    ensures
      var all := MatchAll(b, LegacyOf(o), a);
      Traded(all.trades, id) == if id == o.id then all.order.filled - o.filled else FilledOn(FillsOf(o, b), id)
  {
    hide Match, Refused, Sweep, BookInv, Flat, ExtSweep, AllOk, Ids, FillSum, TradesOf, Traded, FilledOn;
    var t, q := LegacyOf(o), b.Queue(o.side.Opposite());
    MeetsQueue(orders, o, b);
    var m := Match(b, t);
    var ahead, behind := LocalQueues(b, t);
    SweepFilled(b.mode, t, q);
    FillsElsewhere(b.mode, t, q, o.id);
    TradedLocal(t, FillsOf(o, b), b.watch.number, id);
    if GoesOut(m.order, a) {
      TradedExternal(m.order, a.external, id);
      TradedConcat(m.trades, ExtSweep(m.order, a.external).trades, id);
    }
  }

  // ---------------------------------------------------------------------------
  // The queues after one submission
  // ---------------------------------------------------------------------------

  /** What was swept and stays is linked to its record again. */
  lemma SweptLinked(orders: Register, o: OmsOrder, b: BookView, a: Answers)
    requires Meets(orders, o, b)
    ensures AllLinked(Booked(orders, o, b, a), Sweep(b.mode, LegacyOf(o), b.Queue(o.side.Opposite())).queue)
  {
    hide Match, MatchAll, Booked, Refused, Sweep, BookInv, Flat, Unique, FilledOn, AllOk;
    MeetsQueue(orders, o, b);
    var t, q := LegacyOf(o), b.Queue(o.side.Opposite());
    var x := Sweep(b.mode, t, q);
    SweepKeepsCount(b.mode, t, q);
    DeparturesExplained(b.mode, t, q);
    forall j | 0 <= j < |x.queue|
      ensures x.queue[j].id in Booked(orders, o, b, a) && Linked(Booked(orders, o, b, a)[x.queue[j].id], x.queue[j])
    {
      var i := |x.gone| + j;
      assert After(x)[i] == x.queue[j];
      RestingConserved(b.mode, t, q, i);
      OtherBooked(orders, o, b, a, q[i].id);
    }
  }

  /** Resting orders that are not swept stay linked to their records. */
  lemma SpareLinked(orders: Register, o: OmsOrder, b: BookView, a: Answers, q: seq<OrderView>)
    requires Meets(orders, o, b) && AllLinked(orders, q)
    requires forall i :: 0 <= i < |q| ==> Unnamed(b.Queue(o.side.Opposite()), q[i].id)
    ensures AllLinked(Booked(orders, o, b, a), q)
  {
    hide Match, MatchAll, Booked, Refused, Sweep, BookInv, Flat, Unique, FilledOn, AllOk;
    forall i | 0 <= i < |q|
      ensures q[i].id in Booked(orders, o, b, a) && Linked(Booked(orders, o, b, a)[q[i].id], q[i])
    {
      OtherBooked(orders, o, b, a, q[i].id);
      StrangersUntouched(b.mode, LegacyOf(o), b.Queue(o.side.Opposite()), q[i].id);
    }
  }

  lemma Apart(b: BookView, side: Side, i: nat)
    requires Unique(b) && i < |b.Queue(side)|
    ensures Unnamed(b.Queue(side.Opposite()), b.Queue(side)[i].id)
  {
    hide Flat;
    IdsMember(b.Queue(side), i);
    var other := b.Queue(side.Opposite());
    forall j | 0 <= j < |other| ensures other[j].id != b.Queue(side)[i].id { IdsMember(other, j); }
  }

  /** After one submission every resting order is linked to its record. */
  lemma QueuesLinked(orders: Register, o: OmsOrder, b: BookView, a: Answers)
    requires Meets(orders, o, b)
    ensures
      var after := MatchAll(b, LegacyOf(o), a).book;
      AllLinked(Booked(orders, o, b, a), after.Queue(Buy)) && AllLinked(Booked(orders, o, b, a), after.Queue(Sell))
  {
    hide Match, MatchAll, Booked, Refused, Sweep, BookInv, Flat, FilledOn, AllOk, Unnamed, Unique;
    MeetsQueue(orders, o, b);
    var t := LegacyOf(o);
    var all := MatchAll(b, t, a);
    var booked := Booked(orders, o, b, a);
    SweptLinked(orders, o, b, a);
    forall i | 0 <= i < |b.Queue(o.side)| ensures Unnamed(b.Queue(o.side.Opposite()), b.Queue(o.side)[i].id) {
      Apart(b, o.side, i);
    }
    SpareLinked(orders, o, b, a, b.Queue(o.side));
    TakerBooked(orders, o, b, a);
    var ahead, behind := AllQueues(b, t, a);
    LinkedMiddle(booked, ahead, all.order, behind);
  }

  lemma LinkedMiddle(orders: Register, ahead: seq<OrderView>, o: OrderView, behind: seq<OrderView>)
    requires AllLinked(orders, ahead + behind)
    ensures o.id in orders && Linked(orders[o.id], o) ==> AllLinked(orders, ahead + [o] + behind)
  {
    var q := ahead + [o] + behind;
    if o.id in orders && Linked(orders[o.id], o) {
      forall i | 0 <= i < |q| ensures q[i].id in orders && Linked(orders[q[i].id], q[i]) {
        if i != |ahead| {
          assert q[i] == (ahead + behind)[if i < |ahead| then i else i - 1];
        }
      }
    }
  }

  /** After one submission still nobody rests twice. */
  lemma QueuesUnique(orders: Register, o: OmsOrder, b: BookView, a: Answers)
    requires Meets(orders, o, b)
    ensures Unique(MatchAll(b, LegacyOf(o), a).book)
  {
    hide Match, MatchAll, Refused, Sweep, BookInv, Flat, FilledOn, AllOk, AllLinked, Ids;
    MeetsQueue(orders, o, b);
    var t := LegacyOf(o);
    var all := MatchAll(b, t, a);
    var ahead, behind := AllQueues(b, t, a);
    MiddleIds(ahead, all.order, behind);
    forall id ensures Ids(all.book.Queue(Buy))[id] + Ids(all.book.Queue(Sell))[id] <= 1 {
      SweepIds(b.mode, t, b.Queue(o.side.Opposite()), id);
      IdsAbsent(b.Queue(Buy), o.id);
      IdsAbsent(b.Queue(Sell), o.id);
    }
  }

  lemma MiddleIds(ahead: seq<OrderView>, o: OrderView, behind: seq<OrderView>)
    ensures Ids(ahead + [o] + behind) == Ids(ahead + behind) + multiset{o.id}
  {
    IdsRemove(ahead + [o] + behind, |ahead|);
    assert Remove(ahead + [o] + behind, |ahead|) == ahead + behind;
  }

  // ---------------------------------------------------------------------------
  // Runs
  // ---------------------------------------------------------------------------

  /** A desk, the trades reported so far, and the fill each order brought in. */
  datatype Told = Told(desk: Desk, history: seq<Trade>, initial: map<string, real>)

  function Tell(fs: FeeSchedule, m: Market, s: Told, r: Request): Told {
    Told(Serve(fs, m, s.desk, r), s.history + Reported(fs, m, s.desk, r),
         if r.Place? then s.initial[r.order.id := r.order.filled] else s.initial)
  }

  function TellAll(fs: FeeSchedule, m: Market, s: Told, rs: seq<Request>): Told
    decreases |rs|
  {
    if rs == [] then s else TellAll(fs, m, Tell(fs, m, s, rs[0]), rs[1..])
  }

  /** No stop orders; submissions carry a fresh name and something left to fill. */
  predicate Plain(d: Desk, r: Request) {
    r.Place? ==>
      !IsStop(r.order.otype) && r.order.id !in d.orders && !Pseudo(r.order.id) && 0.0 <= r.order.filled < r.order.qty
  }

  predicate AllPlain(fs: FeeSchedule, m: Market, s: Told, rs: seq<Request>)
    decreases |rs|
  {
    rs == [] || (Plain(s.desk, rs[0]) && AllPlain(fs, m, Tell(fs, m, s, rs[0]), rs[1..]))
  }

  /** A record is explained by its initial fill and its trades, and filled exactly when complete. */
  predicate RecordOk(rec: OmsOrder, id: string, start: real, traded: real) {
    rec.id == id && !Pseudo(id) && rec.filled == start + traded && 0.0 <= rec.filled <= rec.qty &&
    (rec.stage.FullyFilled? <==> rec.filled == rec.qty)
  }

  ghost predicate BookAgrees(orders: Register, b: BookView) {
    SoundBook(b) && b.watch.stops == [] && b.watch.pending == [] && Unique(b) &&
    AllLinked(orders, b.Queue(Buy)) && AllLinked(orders, b.Queue(Sell))
  }

  ghost predicate HistoryAgrees(orders: Register, history: seq<Trade>, initial: map<string, real>) {
    initial.Keys == orders.Keys &&
    (forall id :: id in orders ==> RecordOk(orders[id], id, initial[id], Traded(history, id))) &&
    (forall id :: id !in orders && !Pseudo(id) ==> Traded(history, id) == 0.0)
  }

  /** Book, register and history agree. */
  ghost predicate Agreed(s: Told) {
    BookAgrees(s.desk.orders, s.desk.book) && HistoryAgrees(s.desk.orders, s.history, s.initial)
  }

  lemma LinkedGrows(orders: Register, q: seq<OrderView>, rec: OmsOrder)
    requires AllLinked(orders, q) && rec.id !in orders
    ensures AllLinked(orders[rec.id := rec], q)
  {}

  /** A submission that reports no trades and leaves the book alone. */
  lemma AdmitAgrees(orders: Register, b: BookView, history: seq<Trade>, initial: map<string, real>, o: OmsOrder)
    requires BookAgrees(orders, b) && HistoryAgrees(orders, history, initial)
    requires o.id !in orders && !Pseudo(o.id) && 0.0 <= o.filled < o.qty && !o.stage.FullyFilled?
    ensures BookAgrees(orders[o.id := o], b) && HistoryAgrees(orders[o.id := o], history, initial[o.id := o.filled])
  {
    hide SoundBook, Unique, AllLinked, Traded, Flat;
    LinkedGrows(orders, b.Queue(Buy), o);
    LinkedGrows(orders, b.Queue(Sell), o);
  }

  lemma BookedKeys(orders: Register, o: OmsOrder, b: BookView, a: Answers)
    ensures Booked(orders, o, b, a).Keys == orders.Keys + {o.id}
  {
    hide Match, MatchAll, SyncMakers;
    var queued := orders[o.id := o.(stage := Queued)];
    SyncKeepsKeys(SyncTaker(queued, o.id, MatchAll(b, LegacyOf(o), a).order), o.side, Match(b, LegacyOf(o)).trades);
  }

  lemma HistoryGrows(orders: Register, o: OmsOrder, b: BookView, a: Answers, history: seq<Trade>, initial: map<string, real>)
    requires Meets(orders, o, b) && HistoryAgrees(orders, history, initial) && !Pseudo(o.id)
    ensures HistoryAgrees(Booked(orders, o, b, a), history + MatchAll(b, LegacyOf(o), a).trades, initial[o.id := o.filled])
  {
    hide Match, MatchAll, Booked, Refused, Sweep, BookInv, Flat, Unique, FilledOn, AllOk, AllLinked, Traded, SoundBook;
    var all := MatchAll(b, LegacyOf(o), a);
    var after := Booked(orders, o, b, a);
    BookedKeys(orders, o, b, a);
    forall id | !Pseudo(id)
      ensures id in after ==> RecordOk(after[id], id, initial[o.id := o.filled][id], Traded(history + all.trades, id))
      ensures id !in after ==> Traded(history + all.trades, id) == 0.0
    {
      TradedConcat(history, all.trades, id);
      TradedAll(orders, o, b, a, id);
      if id == o.id {
        TakerBooked(orders, o, b, a);
        TakerTerms(orders, o, b, a);
      } else if id in orders {
        OtherBooked(orders, o, b, a, id);
        MakerOk(orders[id], id, initial[id], Traded(history, id), FilledOn(FillsOf(o, b), id));
      } else {
        StrangerTraded(orders, o, b, id);
      }
    }
    assert forall id :: id in after ==> !Pseudo(id);
  }

  lemma MakerOk(rec: OmsOrder, id: string, start: real, traded: real, gain: real)
    requires RecordOk(rec, id, start, traded) && gain >= 0.0
    requires gain > 0.0 ==> StillOpen(rec) && rec.filled + gain <= rec.qty
    ensures RecordOk(rec.(filled := rec.filled + gain, stage := MakerStage(rec, gain)), id, start, traded + gain)
  {}

  lemma TakerTerms(orders: Register, o: OmsOrder, b: BookView, a: Answers)
    requires Meets(orders, o, b)
    ensures
      var all := MatchAll(b, LegacyOf(o), a).order;
      0.0 <= all.filled <= all.qty == o.qty
  {
    hide Match, MatchAll, Refused, Sweep, BookInv, Flat, AllOk, AllLinked, Unique;
    MeetsQueue(orders, o, b);
    var ahead, behind := AllQueues(b, LegacyOf(o), a);
  }

  lemma StrangerTraded(orders: Register, o: OmsOrder, b: BookView, id: string)
    requires Meets(orders, o, b) && id !in orders
    ensures FilledOn(FillsOf(o, b), id) == 0.0
  {
    hide Refused, Sweep, Flat, FilledOn, Unique, BookInv;
    StrangersUntouched(b.mode, LegacyOf(o), b.Queue(o.side.Opposite()), id);
  }

  lemma BookGrows(orders: Register, o: OmsOrder, b: BookView, a: Answers)
    requires Meets(orders, o, b) && b.watch.pending == []
    ensures BookAgrees(Booked(orders, o, b, a), MatchAll(b, LegacyOf(o), a).book)
  {
    hide Match, MatchAll, Booked, Refused, Sweep, BookInv, Flat, Unique, AllOk, AllLinked;
    MeetsQueue(orders, o, b);
    QueuesLinked(orders, o, b, a);
    QueuesUnique(orders, o, b, a);
    MatchAllSound(b, LegacyOf(o), a);
    var ahead, behind := AllQueues(b, LegacyOf(o), a);
  }

  lemma ClearBooked(fs: FeeSchedule, m: Market, d: Desk, o: OmsOrder, a: Answers)
    ensures
      var d1 := Admit(d, o, Queued).(funds := Reserve(fs, m, d, o));
      var after := Clear(fs, m, d1, o, a);
      after.orders == Booked(d.orders, o, d.book, a) && after.book == MatchAll(d.book, LegacyOf(o), a).book
  {
    hide Match, MatchAll, SyncMakers, SyncTaker, Reserve, SettleAll, SurplusAll;
  }

  lemma RefusedAll(b: BookView, o: OrderView, a: Answers)
    requires Refused(b, o)
    ensures MatchAll(b, o, a) == Matched(b, o.(status := Rejected), [])
  {
    hide Match, Refused;
    RefusedMatch(b, o);
  }

  lemma PlaceAgrees(fs: FeeSchedule, m: Market, s: Told, o: OmsOrder, a: Answers)
    requires Agreed(s) && Plain(s.desk, Place(o, a))
    ensures Agreed(Tell(fs, m, s, Place(o, a)))
  {
    hide MatchAll, Refused, Booked, Clear, CanReserve, Reserve, BookAgrees, HistoryAgrees;
    var d := s.desk;
    if !Accepts(fs, m, d, o, a) {
      AdmitAgrees(d.orders, d.book, s.history, s.initial, o.(stage := StageReached(a)));
      assert s.history + [] == s.history;
    } else {
      ClearBooked(fs, m, d, o, a);
      if Refused(d.book, LegacyOf(o)) {
        RefusedAll(d.book, LegacyOf(o), a);
        AdmitAgrees(d.orders, d.book, s.history, s.initial, o.(stage := Queued));
        RefusedBooked(d.orders, o, d.book, a);
        assert s.history + [] == s.history;
      } else {
        AgreedMeets(d.orders, o, d.book);
        HistoryGrows(d.orders, o, d.book, a, s.history, s.initial);
        BookGrows(d.orders, o, d.book, a);
      }
    }
  }

  lemma RefusedBooked(orders: Register, o: OmsOrder, b: BookView, a: Answers)
    requires MatchAll(b, LegacyOf(o), a).trades == []
    ensures Booked(orders, o, b, a) == orders[o.id := o.(stage := Queued)]
  {}

  lemma AgreedMeets(orders: Register, o: OmsOrder, b: BookView)
    requires BookAgrees(orders, b) && o.id !in orders && 0.0 <= o.filled < o.qty && !Refused(b, LegacyOf(o))
    ensures Meets(orders, o, b) && b.watch.pending == []
  {}

  // ---------------------------------------------------------------------------
  // Cancels
  // ---------------------------------------------------------------------------

  lemma {:induction false} WithoutLinked(orders: Register, orders': Register, q: seq<OrderView>, id: string)
    requires AllLinked(orders, q) && Ids(q)[id] <= 1
    requires forall other :: other in orders && other != id ==> other in orders' && orders'[other] == orders[other]
    ensures AllLinked(orders', if Has(q, id) then Without(q, id) else q)
    decreases |q|
  {
    if q != [] {
      assert Has(q, id) <==> q[0].id == id || Has(q[1..], id) by {
        HasConcat([q[0]], q[1..], id);
        assert [q[0]] + q[1..] == q;
        assert Has([q[0]], id) <==> [q[0]][0].id == id;
      }
      assert AllLinked(orders, q[1..]);
      if q[0].id == id {
        forall i | 0 <= i < |q[1..]| ensures q[1..][i].id != id { IdsMember(q[1..], i); }
      } else {
        WithoutLinked(orders, orders', q[1..], id);
      }
    }
  }

  lemma WithoutUnique(b: BookView, id: string)
    requires Unique(b) && b.watch.stops == []
    ensures Unique(Book.Cancel(b, id).0)
  {
    hide Flat, Cancel, Without, Ids, Has;
    CancelQueues(b, id);
    if Has(b.Queue(Buy), id) { IdsWithout(b.Queue(Buy), id); }
    if Has(b.Queue(Sell), id) { IdsWithout(b.Queue(Sell), id); }
  }

  lemma FoundLinked(orders: Register, q: seq<OrderView>, id: string)
    requires AllLinked(orders, q) && Has(q, id)
    ensures id in orders && (orders[id].stage.Queued? || orders[id].stage.PartFilled?)
  {}

  lemma WithdrawAgrees(fs: FeeSchedule, d: Desk, id: string, unstored: bool, history: seq<Trade>, initial: map<string, real>)
    requires BookAgrees(d.orders, d.book) && HistoryAgrees(d.orders, history, initial)
    ensures
      var after := Withdraw(fs, d, id, unstored);
      BookAgrees(after.orders, after.book) && HistoryAgrees(after.orders, history, initial)
  {
    hide Cancel, Flat, Without, Ids, Unique, BookInv, Has, ReleaseOpen, AllLinked;
    var (b, found) := Book.Cancel(d.book, id);
    if id in d.orders && found {
      CancelQueues(d.book, id);
      CancelSound(d.book, id);
      WithoutUnique(d.book, id);
      if Has(d.book.Queue(Buy), id) { FoundLinked(d.orders, d.book.Queue(Buy), id); }
      if Has(d.book.Queue(Sell), id) { FoundLinked(d.orders, d.book.Queue(Sell), id); }
      WithdrawLinked(d, id);
    }
  }

  lemma WithdrawLinked(d: Desk, id: string)
    requires BookAgrees(d.orders, d.book) && id in d.orders
    ensures
      var after := d.orders[id := d.orders[id].(stage := Withdrawn)];
      var b := Book.Cancel(d.book, id).0;
      Book.Cancel(d.book, id).1 ==> AllLinked(after, b.Queue(Buy)) && AllLinked(after, b.Queue(Sell))
  {
    hide Cancel, Flat, Without, Ids, BookInv, Has, AllLinked;
    CancelQueues(d.book, id);
    var after := d.orders[id := d.orders[id].(stage := Withdrawn)];
    if Book.Cancel(d.book, id).1 {
      assert Ids(d.book.Queue(Buy))[id] + Ids(d.book.Queue(Sell))[id] <= 1;
      WithoutLinked(d.orders, after, d.book.Queue(Buy), id);
      WithoutLinked(d.orders, after, d.book.Queue(Sell), id);
      OneSide(d.book, id);
    }
  }

  lemma OneSide(b: BookView, id: string)
    requires Unique(b)
    ensures !(Has(b.Queue(Buy), id) && Has(b.Queue(Sell), id))
  {
    hide Flat;
    if Has(b.Queue(Buy), id) && Has(b.Queue(Sell), id) {
      var i :| 0 <= i < |b.Queue(Buy)| && b.Queue(Buy)[i].id == id;
      var j :| 0 <= j < |b.Queue(Sell)| && b.Queue(Sell)[j].id == id;
      IdsMember(b.Queue(Buy), i);
      IdsMember(b.Queue(Sell), j);
      assert false;
    }
  }

  lemma TellAgrees(fs: FeeSchedule, m: Market, s: Told, r: Request)
    requires Agreed(s) && Plain(s.desk, r)
    ensures Agreed(Tell(fs, m, s, r))
  {
    hide Process, Withdraw, HistoryAgrees, SoundBook, Unique, AllLinked, Flat, MatchAll, CanReserve;
    assert s.history + [] == s.history;
    match r
    case Place(o, a) => PlaceAgrees(fs, m, s, o, a);
    case Withdrawal(id, unstored) => WithdrawAgrees(fs, s.desk, id, unstored, s.history, s.initial);
    case DepositFunds(_, _, _) =>
    case StopRuns(_) =>
    case UseMode(mode) =>
      ModeSound(s.desk.book, mode);
      ModeUnique(s.desk.book, mode);
  }

  lemma ModeUnique(b: BookView, mode: STPMode)
    requires Unique(b)
    ensures Unique(b.(mode := mode))
  {}

  /** Through every run without stop orders, whatever is submitted, declined, refused, matched
      locally or externally, rested and cancelled: each resting order is filled in the book as in
      the register; each record's filled quantity is its initial fill plus the quantities of its
      trades; and it is in the filled stage exactly when it is completely filled. */
  lemma {:induction false} RegisterAgrees(fs: FeeSchedule, m: Market, s: Told, rs: seq<Request>)
    requires Agreed(s) && AllPlain(fs, m, s, rs)
    ensures Agreed(TellAll(fs, m, s, rs))
    decreases |rs|
  {
    hide Agreed, Tell, Plain;
    if rs != [] {
      TellAgrees(fs, m, s, rs[0]);
      RegisterAgrees(fs, m, Tell(fs, m, s, rs[0]), rs[1..]);
    }
  }
}
