/** What every step keeps: a sorted, well-formed, uncrossed book whose stops are accounted for. */
module BookInvariant {
  import opened Book
  import opened Priority

  predicate Uncrossed(b: BookView) {
    b.bids != [] && b.asks != [] ==> b.bids[0].price < b.asks[0].price
  }

  /** Both sides sorted and well-formed, best bid below best ask. */
  predicate BookInv(b: BookView) {
    SideInv(b.bids, Buy) && SideInv(b.asks, Sell) && Uncrossed(b)
  }

  predicate NoEmptyLevel(levels: seq<Level>) {
    forall i :: 0 <= i < |levels| ==> levels[i].orders != []
  }

  predicate NoEmpty(b: BookView) { NoEmptyLevel(b.bids) && NoEmptyLevel(b.asks) }

  predicate OrderOk(o: OrderView) { 0.0 <= o.filled <= o.qty }

  // ---------------------------------------------------------------------------
  // The opposite side: sweeping
  // ---------------------------------------------------------------------------

  lemma {:induction false} SweepKeepsOrders(mode: STPMode, t: OrderView, q: seq<OrderView>, side: Side, price: real)
    requires forall i :: 0 <= i < |q| ==> RestingOk(q[i], side, price)
    ensures forall i :: 0 <= i < |Sweep(mode, t, q).queue| ==> RestingOk(Sweep(mode, t, q).queue[i], side, price)
    ensures OrderOk(t) ==> OrderOk(Sweep(mode, t, q).taker)
    decreases |q|
  {
    if q != [] {
      var head, next := HeadAfter(mode, t, q[0]), NextTaker(mode, t, q[0]);
      if Steps(mode, t, q, head, next) {
        StepAfter(mode, t, q, head, next);
        SweepKeepsOrders(mode, next, q[1..], side, price);
      }
    }
  }

  /** A sweep that does not stop and leaves a queue behind has either completed the incoming order
      or met a price it does not accept. */
  lemma {:induction false} SweepEnds(mode: STPMode, t: OrderView, q: seq<OrderView>)
    requires AllOpen(q)
    ensures
      var o := Sweep(mode, t, q);
      !o.stopped && o.queue != [] ==> o.taker.Open() <= 0.0 || !Crosses(t, o.queue[0].price)
    ensures
      var o := Sweep(mode, t, q);
      o.stopped && o.queue == [] ==> mode.CancelBoth?
    decreases |q|
  {
    if q != [] {
      assert AllOpen(q[1..]);
      var head, next := HeadAfter(mode, t, q[0]), NextTaker(mode, t, q[0]);
      if Steps(mode, t, q, head, next) {
        StepAfter(mode, t, q, head, next);
        SweepEnds(mode, next, q[1..]);
      }
    }
  }

  /** Does the walk go past this first level to the next one? */
  predicate Passes(mode: STPMode, t: OrderView, levels: seq<Level>) {
    levels != [] && t.Open() > 0.0 && Crosses(t, levels[0].price) &&
    !Sweep(mode, t, levels[0].orders).stopped && Sweep(mode, t, levels[0].orders).queue == []
  }

  /** What the walk leaves of a level it stops at. */
  lemma LevelLeft(mode: STPMode, t: OrderView, l: Level, side: Side)
    requires LevelOk(l, side) && OrderOk(t)
    ensures
      var o := Sweep(mode, t, l.orders);
      LevelOk(Level(l.price, o.queue), side) && OrderOk(o.taker) && SameTerms(t, o.taker)
  {
    SweepKeepsOrders(mode, t, l.orders, side, l.price);
    SweepKeepsTerms(mode, t, l.orders);
  }

  /** A swept side stays well-formed and its best price never improves. */
  lemma {:induction false} SweptSide(mode: STPMode, t: OrderView, levels: seq<Level>)
    requires SideInv(levels, t.side.Opposite()) && OrderOk(t)
    ensures
      var s := SweepLevels(mode, t, levels);
      SideInv(s.levels, t.side.Opposite()) && OrderOk(s.taker) && SameTerms(t, s.taker)
    ensures
      var s := SweepLevels(mode, t, levels);
      s.levels != [] ==> levels != [] && !Better(t.side.Opposite(), s.levels[0].price, levels[0].price)
    decreases |levels|
  {
    if levels != [] {
      var o := Sweep(mode, t, levels[0].orders);
      LevelLeft(mode, t, levels[0], t.side.Opposite());
      TailInv(levels, t.side.Opposite());
      if Passes(mode, t, levels) {
        SweptSide(mode, o.taker, levels[1..]);
      }
    }
  }

  /** If the incoming order is still open and was not stopped, no remaining level crosses it. */
  lemma {:induction false} SweptClear(mode: STPMode, t: OrderView, levels: seq<Level>)
    requires SideInv(levels, t.side.Opposite()) && OrderOk(t)
    requires !SweepLevels(mode, t, levels).stopped && SweepLevels(mode, t, levels).taker.Open() > 0.0
    ensures forall i :: 0 <= i < |SweepLevels(mode, t, levels).levels| ==>
      !Crosses(t, SweepLevels(mode, t, levels).levels[i].price)
    decreases |levels|
  {
    if levels != [] {
      var o := Sweep(mode, t, levels[0].orders);
      LevelLeft(mode, t, levels[0], t.side.Opposite());
      TailInv(levels, t.side.Opposite());
      if Passes(mode, t, levels) {
        SweptClear(mode, o.taker, levels[1..]);
      } else if !Crosses(t, levels[0].price) {
        NothingCrosses(t, levels);
      } else {
        SweepEnds(mode, t, levels[0].orders);
      }
    }
  }

  /** A sweep leaves no empty level behind, unless it cancelled both orders. */
  lemma {:induction false} SweptNoEmpty(mode: STPMode, t: OrderView, levels: seq<Level>)
    requires SideInv(levels, t.side.Opposite()) && OrderOk(t) && NoEmptyLevel(levels)
    requires !(SweepLevels(mode, t, levels).stopped && mode.CancelBoth?)
    ensures NoEmptyLevel(SweepLevels(mode, t, levels).levels)
    decreases |levels|
  {
    if levels != [] {
      var o := Sweep(mode, t, levels[0].orders);
      LevelLeft(mode, t, levels[0], t.side.Opposite());
      TailInv(levels, t.side.Opposite());
      if Passes(mode, t, levels) {
        SweptNoEmpty(mode, o.taker, levels[1..]);
      } else {
        SweepEnds(mode, t, levels[0].orders);
      }
    }
  }

  // ---------------------------------------------------------------------------
  // The own side: resting and cancelling
  // ---------------------------------------------------------------------------

  predicate Behind(levels: seq<Level>, side: Side, p: real) {
    forall i :: 0 <= i < |levels| ==> Better(side, p, levels[i].price)
  }

  lemma {:induction false} InsertBehind(levels: seq<Level>, o: OrderView, side: Side, p: real)
    requires Behind(levels, side, p) && Better(side, p, o.price)
    ensures Behind(Insert(levels, o, side), side, p)
    decreases |levels|
  {
    if levels != [] { InsertBehind(levels[1..], o, side, p); }
  }

  /** The best price after resting an order is the old best or the order's own. */
  lemma InsertBest(levels: seq<Level>, o: OrderView, side: Side)
    ensures Insert(levels, o, side) != []
    ensures !Better(side, o.price, Insert(levels, o, side)[0].price)
    ensures Insert(levels, o, side)[0].price == o.price ||
      (levels != [] && Insert(levels, o, side)[0].price == levels[0].price)
  {}

  lemma {:induction false} InsertKeeps(levels: seq<Level>, o: OrderView, side: Side)
    requires SideInv(levels, side) && RestingOk(o, side, o.price)
    ensures SideInv(Insert(levels, o, side), side)
    ensures NoEmptyLevel(levels) ==> NoEmptyLevel(Insert(levels, o, side))
    decreases |levels|
  {
    if levels == [] {
    } else if levels[0].price == o.price {
      assert LevelOk(levels[0], side);
      assert LevelOk(Level(o.price, levels[0].orders + [o]), side);
    } else if Better(side, o.price, levels[0].price) {
      assert LevelOk(Level(o.price, [o]), side);
    } else {
      TailInv(levels, side);
      InsertKeeps(levels[1..], o, side);
      assert Behind(levels[1..], side, levels[0].price);
      InsertBehind(levels[1..], o, side, levels[0].price);
    }
  }

  /** Price-time priority of a newly rested order: it stands behind every order at its price or
      better and before every order at a worse price. */
  lemma {:induction false} InsertPriority(levels: seq<Level>, o: OrderView, side: Side)
    returns (ahead: seq<OrderView>, behind: seq<OrderView>)
    requires SideInv(levels, side)
    ensures Flat(levels) == ahead + behind
    ensures Flat(Insert(levels, o, side)) == ahead + [o] + behind
    ensures forall i :: 0 <= i < |ahead| ==> !Better(side, o.price, ahead[i].price)
    ensures forall i :: 0 <= i < |behind| ==> Better(side, o.price, behind[i].price)
    decreases |levels|
  {
    hide Better, SideInv;
    if levels == [] {
      ahead, behind := [], [];
    } else if levels[0].price == o.price {
      NotBetter(o.price, side);
      FirstLevelPrices(levels, o, side);
      ahead, behind := levels[0].orders, Flat(levels[1..]);
      AllBehind(levels, side);
      assert ([Level(o.price, levels[0].orders + [o])] + levels[1..])[1..] == levels[1..];
    } else if Better(side, o.price, levels[0].price) {
      ahead, behind := [], Flat(levels);
      AllWorse(levels, o, side);
      assert ([Level(o.price, [o])] + levels)[1..] == levels;
    } else {
      TailInv(levels, side);
      FirstLevelPrices(levels, o, side);
      ahead, behind := InsertPriority(levels[1..], o, side);
      assert ([levels[0]] + Insert(levels[1..], o, side))[1..] == Insert(levels[1..], o, side);
      assert levels[0].orders + (ahead + [o] + behind) == (levels[0].orders + ahead) + [o] + behind;
      ahead := levels[0].orders + ahead;
    }
  }

  lemma AllWorse(levels: seq<Level>, o: OrderView, side: Side)
    requires SideInv(levels, side) && levels != [] && Better(side, o.price, levels[0].price)
    ensures forall i :: 0 <= i < |Flat(levels)| ==> Better(side, o.price, Flat(levels)[i].price)
  {
    forall i | 0 <= i < |Flat(levels)| ensures Better(side, o.price, Flat(levels)[i].price) {
      FlatPrices(levels, side, i);
    }
  }

  lemma NotBetter(p: real, side: Side)
    ensures !Better(side, p, p)
  {}

  lemma FirstLevelPrices(levels: seq<Level>, o: OrderView, side: Side)
    requires SideInv(levels, side) && levels != [] && !Better(side, o.price, levels[0].price)
    ensures forall i :: 0 <= i < |levels[0].orders| ==> !Better(side, o.price, levels[0].orders[i].price)
  {
    assert LevelOk(levels[0], side);
  }

  lemma AllBehind(levels: seq<Level>, side: Side)
    requires SideInv(levels, side) && levels != []
    ensures forall i :: 0 <= i < |Flat(levels[1..])| ==> Better(side, levels[0].price, Flat(levels[1..])[i].price)
  {
    TailInv(levels, side);
    forall i | 0 <= i < |Flat(levels[1..])|
      ensures Better(side, levels[0].price, Flat(levels[1..])[i].price)
    {
      FlatPrices(levels[1..], side, i);
    }
  }

  lemma {:induction false} WithoutKeeps(q: seq<OrderView>, id: string, side: Side, price: real)
    requires forall i :: 0 <= i < |q| ==> RestingOk(q[i], side, price)
    ensures forall i :: 0 <= i < |Without(q, id)| ==> RestingOk(Without(q, id)[i], side, price)
    decreases |q|
  {
    if q != [] { WithoutKeeps(q[1..], id, side, price); }
  }

  lemma {:induction false} WithoutBehind(levels: seq<Level>, id: string, side: Side, p: real)
    requires Behind(levels, side, p)
    ensures Behind(WithoutLevel(levels, id), side, p)
    decreases |levels|
  {
    if levels != [] { WithoutBehind(levels[1..], id, side, p); }
  }

  lemma {:induction false} WithoutLevelKeeps(levels: seq<Level>, id: string, side: Side)
    requires SideInv(levels, side)
    ensures SideInv(WithoutLevel(levels, id), side)
    decreases |levels|
  {
    hide Without, Has, Better, RestingOk, NoEmptyLevel;
    if levels != [] {
      TailInv(levels, side);
      WithoutLevelKeeps(levels[1..], id, side);
      assert Behind(levels[1..], side, levels[0].price);
      WithoutBehind(levels[1..], id, side, levels[0].price);
      WithoutKeeps(levels[0].orders, id, side, levels[0].price);
      assert LevelOk(Level(levels[0].price, Without(levels[0].orders, id)), side);
    }
  }

  lemma {:induction false} WithoutLevelNoEmpty(levels: seq<Level>, id: string)
    requires NoEmptyLevel(levels)
    ensures NoEmptyLevel(WithoutLevel(levels, id))
    decreases |levels|
  {
    hide Without, Has;
    if levels != [] { WithoutLevelNoEmpty(levels[1..], id); }
  }

  // ---------------------------------------------------------------------------
  // The whole book, step by step
  // ---------------------------------------------------------------------------

  /** Did this match end with both orders cancelled by self-trade prevention? */
  predicate BothCancelled(b: BookView, o: OrderView) {
    !Refused(b, o) && b.mode.CancelBoth? && SweepLevels(b.mode, o, b.On(o.side.Opposite())).stopped
  }

  /** Matching any well-formed order keeps the book sorted, well-formed and uncrossed. */
  lemma MatchKeeps(b: BookView, o: OrderView)
    requires BookInv(b) && OrderOk(o)
    ensures BookInv(Match(b, o).book) && OrderOk(Match(b, o).order)
    ensures NoEmpty(b) && !BothCancelled(b, o) ==> NoEmpty(Match(b, o).book)
  {
    hide Refused, FokFails, SweepLevels, Insert, Ripple, TradesOf, SideInv, NoEmptyLevel;
    if !Refused(b, o) {
      var s := SweepLevels(b.mode, o, b.On(o.side.Opposite()));
      SweptSide(b.mode, o, b.On(o.side.Opposite()));
      if NoEmpty(b) && !BothCancelled(b, o) { SweptNoEmpty(b.mode, o, b.On(o.side.Opposite())); }
      if Rests(s) {
        SweptClear(b.mode, o, b.On(o.side.Opposite()));
        InsertKeeps(b.On(o.side), s.taker, o.side);
        InsertBest(b.On(o.side), s.taker, o.side);
      }
    }
  }

  lemma CancelKeeps(b: BookView, id: string)
    requires BookInv(b)
    ensures BookInv(Cancel(b, id).0)
    ensures NoEmpty(b) ==> NoEmpty(Cancel(b, id).0)
  {
    WithoutLevelKeeps(b.bids, id, Buy);
    WithoutLevelKeeps(b.asks, id, Sell);
    if NoEmpty(b) {
      WithoutLevelNoEmpty(b.bids, id);
      WithoutLevelNoEmpty(b.asks, id);
    }
    WithoutLevelBest(b.bids, id, Buy);
    WithoutLevelBest(b.asks, id, Sell);
  }

  /** Cancelling never improves the best price. */
  lemma WithoutLevelBest(levels: seq<Level>, id: string, side: Side)
    requires SideInv(levels, side)
    ensures WithoutLevel(levels, id) != [] ==>
      levels != [] && !Better(side, WithoutLevel(levels, id)[0].price, levels[0].price)
  {}

  /** Resting an order without matching keeps the book uncrossed exactly when the order does not
      cross the best opposite price. */
  lemma RestKeepsIff(b: BookView, o: OrderView)
    requires BookInv(b) && RestingOk(o, o.side, o.price)
    ensures
      var opposite := b.On(o.side.Opposite());
      BookInv(Rest(b, o)) <==> opposite == [] || !Crosses(o, opposite[0].price)
  {
    InsertKeeps(b.On(o.side), o, o.side);
    InsertBest(b.On(o.side), o, o.side);
  }

  /** Resting without matching does cross the book: a buy at 11 put beside a sell at 10. */
  lemma RestCrosses(b: BookView, r: OrderView, o: OrderView)
    requires r == OrderView("s1", "bob", Sell, Limit, 10.0, 1.0, 0.0, New, GTC, false)
    requires o == OrderView("b1", "ann", Buy, Limit, 11.0, 1.0, 0.0, New, GTC, false)
    requires b == BookView(CancelNewest, [], [Level(10.0, [r])], Watch([], [], 0.0, 0))
    ensures BookInv(b) && RestingOk(o, Buy, 11.0) && !BookInv(Rest(b, o))
  {
    assert LevelOk(b.asks[0], Sell);
    RestKeepsIff(b, o);
  }

  // ---------------------------------------------------------------------------
  // Runs
  // ---------------------------------------------------------------------------

  datatype Event =
    | Submit(order: OrderView)
    | CancelById(id: string)
    | RegisterStop(order: OrderView)
    | RunPending(index: nat)      // a triggered stop's match is scheduled
    | SetMode(mode: STPMode)

  /** The book with what became of the stop orders: identifiers registered, submitted for
      matching and cancelled so far, with multiplicity. */
  datatype State = State(
    book: BookView, registered: multiset<string>, submitted: multiset<string>, cancelled: multiset<string>,
    bothFired: bool)

  predicate EventOk(e: Event) {
    (e.Submit? || e.RegisterStop?) ==> OrderOk(e.order)
  }

  function Remove<T>(q: seq<T>, i: nat): seq<T>
    requires i < |q|
  {
    q[..i] + q[i + 1..]
  }

  function Launch(b: BookView, i: nat): BookView
    requires i < |b.watch.pending|
  {
    b.(watch := b.watch.(pending := Remove(b.watch.pending, i)))
  }

  function Step(s: State, e: Event): State {
    match e
    case Submit(o) =>
      s.(book := Match(s.book, o).book, bothFired := s.bothFired || BothCancelled(s.book, o))
    case CancelById(id) =>
      s.(book := Cancel(s.book, id).0,
         cancelled := if Has(s.book.watch.stops, id) then s.cancelled + multiset{id} else s.cancelled)
    case RegisterStop(o) =>
      s.(book := AddStop(s.book, o), registered := s.registered + multiset{o.id})
    case RunPending(i) =>
      if i >= |s.book.watch.pending| then s
      else
        var o := s.book.watch.pending[i];
        var b := Launch(s.book, i);
        s.(book := Match(b, o).book, submitted := s.submitted + multiset{o.id},
           bothFired := s.bothFired || BothCancelled(b, o))
    case SetMode(m) => s.(book := s.book.(mode := m))
  }

  function Run(s: State, events: seq<Event>): State
    decreases |events|
  {
    if events == [] then s else Run(Step(s, events[0]), events[1..])
  }

  function Ids(q: seq<OrderView>): multiset<string> {
    if q == [] then multiset{} else multiset{q[0].id} + Ids(q[1..])
  }

  lemma {:induction false} IdsConcat(a: seq<OrderView>, b: seq<OrderView>)
    ensures Ids(a + b) == Ids(a) + Ids(b)
    decreases |a|
  {
    if a == [] {
      assert a + b == b;
    } else {
      assert (a + b)[1..] == a[1..] + b;
      IdsConcat(a[1..], b);
    }
  }

  lemma {:induction false} IdsRemove(q: seq<OrderView>, i: nat)
    requires i < |q|
    ensures Ids(q) == Ids(Remove(q, i)) + multiset{q[i].id}
    decreases |q|
  {
    if i == 0 {
      assert Remove(q, 0) == q[1..];
    } else {
      assert Remove(q, i) == [q[0]] + Remove(q[1..], i - 1);
      IdsRemove(q[1..], i - 1);
    }
  }

  lemma {:induction false} IdsWithout(q: seq<OrderView>, id: string)
    requires Has(q, id)
    ensures Ids(q) == Ids(Without(q, id)) + multiset{id}
    decreases |q|
  {
    if q[0].id != id {
      assert Has(q[1..], id) by {
        var i :| 0 <= i < |q| && q[i].id == id;
        assert q[1..][i - 1].id == id;
      }
      IdsWithout(q[1..], id);
    }
  }

  lemma {:induction false} WithoutAt(q: seq<OrderView>, j: nat, id: string)
    requires j < |q| && q[j].id == id && forall k :: 0 <= k < j ==> q[k].id != id
    ensures Has(q, id) && Without(q, id) == Remove(q, j)
    decreases |q|
  {
    if j == 0 {
      assert Remove(q, 0) == q[1..];
    } else {
      WithoutAt(q[1..], j - 1, id);
      assert Remove(q, j) == [q[0]] + Remove(q[1..], j - 1);
    }
  }

  lemma {:induction false} SplitIds(stops: seq<OrderView>, price: real)
    ensures Ids(stops) == Ids(Kept(stops, price)) + Ids(Fired(stops, price))
    decreases |stops|
  {
    if stops != [] {
      SplitIds(stops[1..], price);
      var kept := if Triggers(stops[0], price) then [] else [stops[0]];
      var fired := if Triggers(stops[0], price) then [stops[0].(otype := Limit)] else [];
      IdsConcat(kept, Kept(stops[1..], price));
      IdsConcat(fired, Fired(stops[1..], price));
    }
  }

  /** Trades move stops from armed to pending; none is lost or duplicated. */
  lemma {:induction false} RippleKeepsIds(w: Watch, fills: seq<Fill>)
    ensures Ids(Ripple(w, fills).stops) + Ids(Ripple(w, fills).pending) == Ids(w.stops) + Ids(w.pending)
    decreases |fills|
  {
    if fills != [] {
      var price := fills[0].price;
      SplitIds(w.stops, price);
      IdsConcat(w.pending, Fired(w.stops, price));
      RippleKeepsIds(w.See(price), fills[1..]);
    }
  }

  predicate AllOk(q: seq<OrderView>) { forall i :: 0 <= i < |q| ==> OrderOk(q[i]) }

  lemma {:induction false} SplitOk(stops: seq<OrderView>, price: real)
    requires AllOk(stops)
    ensures AllOk(Kept(stops, price)) && AllOk(Fired(stops, price))
    decreases |stops|
  {
    if stops != [] {
      assert OrderOk(stops[0]) && AllOk(stops[1..]);
      SplitOk(stops[1..], price);
    }
  }

  lemma {:induction false} RippleOk(w: Watch, fills: seq<Fill>)
    requires AllOk(w.stops) && AllOk(w.pending)
    ensures AllOk(Ripple(w, fills).stops) && AllOk(Ripple(w, fills).pending)
    decreases |fills|
  {
    if fills != [] {
      SplitOk(w.stops, fills[0].price);
      RippleOk(w.See(fills[0].price), fills[1..]);
    }
  }

  lemma {:induction false} WithoutOk(q: seq<OrderView>, id: string)
    requires AllOk(q)
    ensures AllOk(Without(q, id))
    decreases |q|
  {
    if q != [] { WithoutOk(q[1..], id); }
  }

  /** Each registered stop is exactly one of armed, pending, submitted or cancelled. */
  predicate StopsAccounted(s: State) {
    s.registered == Ids(s.book.watch.stops) + Ids(s.book.watch.pending) + s.submitted + s.cancelled
  }

  predicate StopsOk(s: State) {
    StopsAccounted(s) && AllOk(s.book.watch.stops) && AllOk(s.book.watch.pending)
  }

  predicate Good(s: State) {
    BookInv(s.book) && (s.bothFired || NoEmpty(s.book)) && StopsOk(s)
  }

  /** A match touches the stops only through the prices of its fills. */
  lemma MatchWatchIs(b: BookView, o: OrderView)
    returns (fills: seq<Fill>)
    ensures Match(b, o).book.watch.stops == Ripple(b.watch, fills).stops
    ensures Match(b, o).book.watch.pending == Ripple(b.watch, fills).pending
  {
    fills := if Refused(b, o) then [] else SweepLevels(b.mode, o, b.On(o.side.Opposite())).fills;
  }

  lemma MatchKeepsStops(b: BookView, o: OrderView)
    ensures Ids(Match(b, o).book.watch.stops) + Ids(Match(b, o).book.watch.pending) == Ids(b.watch.stops) + Ids(b.watch.pending)
    ensures AllOk(b.watch.stops) && AllOk(b.watch.pending) ==>
      AllOk(Match(b, o).book.watch.stops) && AllOk(Match(b, o).book.watch.pending)
  {
    var fills := MatchWatchIs(b, o);
    RippleKeepsIds(b.watch, fills);
    if AllOk(b.watch.stops) && AllOk(b.watch.pending) { RippleOk(b.watch, fills); }
  }

  lemma SubmitKeepsStops(s: State, b: BookView, o: OrderView)
    requires AllOk(b.watch.stops) && AllOk(b.watch.pending)
    requires s.registered == Ids(b.watch.stops) + Ids(b.watch.pending) + s.submitted + s.cancelled
    ensures StopsOk(s.(book := Match(b, o).book))
  {
    MatchKeepsStops(b, o);
  }

  lemma CancelWatch(b: BookView, id: string)
    ensures
      var w := Cancel(b, id).0.watch;
      w.pending == b.watch.pending &&
      w.stops == if Has(b.watch.stops, id) then Without(b.watch.stops, id) else b.watch.stops
  {}

  lemma CancelKeepsStops(s: State, id: string)
    requires StopsOk(s)
    ensures StopsOk(Step(s, CancelById(id)))
  {
    var w := s.book.watch;
    CancelWatch(s.book, id);
    if Has(w.stops, id) {
      WithoutOk(w.stops, id);
      IdsWithout(w.stops, id);
      Dropped(s.registered, Ids(Without(w.stops, id)), Ids(w.pending), s.submitted, s.cancelled, multiset{id});
    }
  }

  lemma Dropped(total: multiset<string>, armed: multiset<string>, pending: multiset<string>,
                done: multiset<string>, gone: multiset<string>, moved: multiset<string>)
    requires total == (armed + moved) + pending + done + gone
    ensures total == armed + pending + done + (gone + moved)
  {}

  lemma RegisterKeepsStops(s: State, o: OrderView)
    requires StopsOk(s) && OrderOk(o)
    ensures StopsOk(Step(s, RegisterStop(o)))
  {
    hide Ids, BookInv;
    var w := s.book.watch;
    IdsConcat(w.stops, [o]);
    IdsOne(o);
    Added(s.registered, Ids(w.stops), Ids(w.pending), s.submitted, s.cancelled, multiset{o.id});
  }

  lemma IdsOne(o: OrderView)
    ensures Ids([o]) == multiset{o.id}
  {
    assert Ids([o]) == multiset{o.id} + Ids([]);
  }

  lemma Added(total: multiset<string>, armed: multiset<string>, pending: multiset<string>,
              done: multiset<string>, gone: multiset<string>, extra: multiset<string>)
    requires total == armed + pending + done + gone
    ensures total + extra == armed + extra + pending + done + gone
  {}

  lemma LaunchKeepsStops(s: State, i: nat)
    requires StopsOk(s) && i < |s.book.watch.pending|
    ensures StopsOk(Step(s, RunPending(i)))
  {
    var w := s.book.watch;
    var id := w.pending[i].id;
    var left := Ids(Remove(w.pending, i));
    IdsRemove(w.pending, i);
    assert AllOk(Remove(w.pending, i));
    Taken(s.registered, Ids(w.stops), left, s.submitted, s.cancelled, multiset{id});
    SubmitKeepsStops(s.(submitted := s.submitted + multiset{id}), Launch(s.book, i), w.pending[i]);
  }

  lemma Taken(total: multiset<string>, armed: multiset<string>, pending: multiset<string>,
              done: multiset<string>, gone: multiset<string>, moved: multiset<string>)
    requires total == armed + (pending + moved) + done + gone
    ensures total == armed + pending + (done + moved) + gone
  {}

  lemma StepKeepsStops(s: State, e: Event)
    requires StopsOk(s) && EventOk(e)
    ensures StopsOk(Step(s, e))
  {
    match e
    case Submit(o) => SubmitKeepsStops(s, s.book, o);
    case CancelById(id) => CancelKeepsStops(s, id);
    case RegisterStop(o) => RegisterKeepsStops(s, o);
    case RunPending(i) => if i < |s.book.watch.pending| { LaunchKeepsStops(s, i); }
    case SetMode(_) =>
  }

  lemma StepKeepsBook(s: State, e: Event)
    requires Good(s) && EventOk(e)
    ensures BookInv(Step(s, e).book) && (Step(s, e).bothFired || NoEmpty(Step(s, e).book))
  {
    match e
    case Submit(o) => MatchKeeps(s.book, o);
    case CancelById(id) => CancelKeeps(s.book, id);
    case RegisterStop(o) =>
    case RunPending(i) =>
      if i < |s.book.watch.pending| {
        assert OrderOk(s.book.watch.pending[i]);
        MatchKeeps(Launch(s.book, i), s.book.watch.pending[i]);
      }
    case SetMode(_) =>
  }

  /** Where every run may start. */
  lemma EmptyIsGood(mode: STPMode, last: real)
    ensures Good(State(BookView(mode, [], [], Watch([], [], last, 0)), multiset{}, multiset{}, multiset{}, false))
  {}

  /** Every run of submissions, cancels, stop registrations and scheduled stop matches, in any
      interleaving and with any self-trade mode at any time, keeps the book sorted, well-formed
      and uncrossed, without empty levels until a match has cancelled both orders, and keeps
      every registered stop in exactly one place. */
  lemma {:induction false} EveryRunIsGood(s: State, events: seq<Event>)
    requires Good(s)
    requires forall i :: 0 <= i < |events| ==> EventOk(events[i])
    ensures Good(Run(s, events))
    decreases |events|
  {
    if events != [] {
      StepKeepsBook(s, events[0]);
      StepKeepsStops(s, events[0]);
      EveryRunIsGood(Step(s, events[0]), events[1..]);
    }
  }

  /** A stop registered once is submitted at most once, and never both submitted and cancelled,
      nor submitted while it still waits. */
  lemma StopSubmittedOnce(s: State, events: seq<Event>, id: string)
    requires Good(s)
    requires forall i :: 0 <= i < |events| ==> EventOk(events[i])
    requires Run(s, events).registered[id] == 1
    ensures
      var r := Run(s, events);
      r.submitted[id] + r.cancelled[id] + Ids(r.book.watch.stops)[id] + Ids(r.book.watch.pending)[id] == 1
  {
    EveryRunIsGood(s, events);
  }

  lemma {:induction false} KeptExactly(stops: seq<OrderView>, price: real, o: OrderView)
    ensures o in Kept(stops, price) <==> o in stops && !Triggers(o, price)
    decreases |stops|
  {
    if stops != [] { KeptExactly(stops[1..], price, o); }
  }

  lemma {:induction false} FiredExactly(stops: seq<OrderView>, price: real, o: OrderView)
    ensures o in Fired(stops, price) <==> exists i :: 0 <= i < |stops| && Triggers(stops[i], price) && o == stops[i].(otype := Limit)
    decreases |stops|
  {
    if stops != [] {
      FiredExactly(stops[1..], price, o);
      if Triggers(stops[0], price) && o == stops[0].(otype := Limit) {
        assert Triggers(stops[0], price);
      } else if o in Fired(stops[1..], price) {
        var i :| 0 <= i < |stops[1..]| && Triggers(stops[1..][i], price) && o == stops[1..][i].(otype := Limit);
        assert Triggers(stops[i + 1], price);
      }
      if i :| 0 < i < |stops| && Triggers(stops[i], price) && o == stops[i].(otype := Limit) {
        assert Triggers(stops[1..][i - 1], price);
      }
    }
  }

  /** Between a price and a trigger: a stop buy fires at or above its price and a stop sell at or below; a
      take-profit buy at or below and a take-profit sell at or above. */
  lemma TriggerIs(o: OrderView, price: real)
    ensures (o.otype.Stop? || o.otype.StopLimit?) && o.side.Buy? ==> (Triggers(o, price) <==> price >= o.price)
    ensures (o.otype.Stop? || o.otype.StopLimit?) && o.side.Sell? ==> (Triggers(o, price) <==> price <= o.price)
    ensures (o.otype.TakeProfit? || o.otype.TakeProfitLimit?) && o.side.Buy? ==> (Triggers(o, price) <==> price <= o.price)
    ensures (o.otype.TakeProfit? || o.otype.TakeProfitLimit?) && o.side.Sell? ==> (Triggers(o, price) <==> price >= o.price)
  {}

  /** A stop and a take-profit of one side and price share that price as a trigger; at any other price
      exactly one of them fires. */
  lemma OneOfTwoFires(stop: OrderView, profit: OrderView, price: real)
    requires (stop.otype.Stop? || stop.otype.StopLimit?) && (profit.otype.TakeProfit? || profit.otype.TakeProfitLimit?)
    requires stop.side == profit.side && stop.price == profit.price
    ensures price != stop.price ==> (stop in Kept([stop], price) <==> profit !in Kept([profit], price))
    ensures price == stop.price ==> stop !in Kept([stop], price) && profit !in Kept([profit], price)
  {
    KeptExactly([stop], price, stop);
    KeptExactly([profit], price, profit);
  }

  /** Is a stop order far from a trade price: strictly below for what waits for a rise, strictly above for
      what waits for a fall? */
  predicate Untouched(o: OrderView, price: real) {
    var profit := o.otype.TakeProfit? || o.otype.TakeProfitLimit?;
    var waitsForRise := if profit then o.side.Sell? else o.side.Buy?;
    if waitsForRise then price < o.price else price > o.price
  }

  /** The stops still armed after some trades are exactly those that every trade price kept away from: a
      stop sell saw only higher prices and a stop buy only lower ones, a take-profit the other way round. */
  lemma {:induction false} ArmedExactly(w: Watch, fills: seq<Fill>, o: OrderView)
    ensures o in Ripple(w, fills).stops <==> o in w.stops && forall k :: 0 <= k < |fills| ==> Untouched(o, fills[k].price)
    ensures o in Ripple(w, fills).stops && (o.otype.Stop? || o.otype.StopLimit?) ==> forall k :: 0 <= k < |fills| ==>
      if o.side.Buy? then fills[k].price < o.price else fills[k].price > o.price
    ensures o in Ripple(w, fills).stops && (o.otype.TakeProfit? || o.otype.TakeProfitLimit?) ==> forall k :: 0 <= k < |fills| ==>
      if o.side.Buy? then fills[k].price > o.price else fills[k].price < o.price
    decreases |fills|
  {
    if fills != [] {
      KeptExactly(w.stops, fills[0].price, o);
      ArmedExactly(w.See(fills[0].price), fills[1..], o);
      assert forall k :: 1 <= k < |fills| ==> fills[k] == fills[1..][k - 1];
    }
  }

  /** Every order launched by some trades is a stop that was armed, at its own price, and one of the trades
      reached that price. */
  lemma {:induction false} LaunchedReached(w: Watch, fills: seq<Fill>, o: OrderView)
    requires o in Ripple(w, fills).pending && o !in w.pending
    ensures exists stop, k :: stop in w.stops && 0 <= k < |fills| && o == stop.(otype := Limit) && !Untouched(stop, fills[k].price)
    decreases |fills|
  {
    if fills != [] {
      var next := w.See(fills[0].price);
      if o in next.pending {
        FiredExactly(w.stops, fills[0].price, o);
        var i :| 0 <= i < |w.stops| && Triggers(w.stops[i], fills[0].price) && o == w.stops[i].(otype := Limit);
        assert w.stops[i] in w.stops && !Untouched(w.stops[i], fills[0].price);
      } else {
        LaunchedReached(next, fills[1..], o);
        var stop, k :| stop in next.stops && 0 <= k < |fills[1..]| && o == stop.(otype := Limit) && !Untouched(stop, fills[1..][k].price);
        KeptExactly(w.stops, fills[0].price, stop);
        assert fills[1..][k] == fills[k + 1];
        assert !Untouched(stop, fills[k + 1].price);
      }
    }
  }

  lemma {:induction false} LastIsLastFill(w: Watch, fills: seq<Fill>)
    requires fills != []
    ensures Ripple(w, fills).last == fills[|fills| - 1].price
    decreases |fills|
  {
    if |fills| > 1 { LastIsLastFill(w.See(fills[0].price), fills[1..]); }
  }

  lemma {:induction false} TradesMirrorFills(t: OrderView, fills: seq<Fill>, number: nat)
    ensures |TradesOf(t, fills, number)| == |fills|
    ensures forall k :: 0 <= k < |fills| ==> TradesOf(t, fills, number)[k] == TradeOf(t, fills[k], number + 1 + k)
    decreases |fills|
  {
    if fills != [] {
      TradesMirrorFills(t, fills[1..], number + 1);
    }
  }

  /** After a match that traded, the last price has not reached any armed stop: it is above every stop sell
      and take-profit buy and below every stop buy and take-profit sell. */
  lemma NoArmedStopIsDue(b: BookView, o: OrderView)
    requires Match(b, o).trades != []
    ensures
      var w := Match(b, o).book.watch;
      forall i :: 0 <= i < |w.stops| ==>
        (((w.stops[i].otype.Stop? || w.stops[i].otype.StopLimit?) && w.stops[i].side.Sell? ==> w.last > w.stops[i].price) &&
         ((w.stops[i].otype.Stop? || w.stops[i].otype.StopLimit?) && w.stops[i].side.Buy? ==> w.last < w.stops[i].price) &&
         ((w.stops[i].otype.TakeProfit? || w.stops[i].otype.TakeProfitLimit?) && w.stops[i].side.Sell? ==> w.last < w.stops[i].price) &&
         ((w.stops[i].otype.TakeProfit? || w.stops[i].otype.TakeProfitLimit?) && w.stops[i].side.Buy? ==> w.last > w.stops[i].price))
  {
    var s := SweepLevels(b.mode, o, b.On(o.side.Opposite()));
    TradesMirrorFills(o, s.fills, b.watch.number);
    LastIsLastFill(b.watch, s.fills);
    var w := Ripple(b.watch, s.fills);
    forall i | 0 <= i < |w.stops| ensures Untouched(w.stops[i], w.last) {
      ArmedExactly(b.watch, s.fills, w.stops[i]);
    }
  }
}
