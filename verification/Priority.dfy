/** What the greedy fill means: which orders trade, for how much, in what order, and what is left;
    and that walking price levels gives exactly the result of walking the flat queue. */
module Priority {
  import opened Book

  // ---------------------------------------------------------------------------
  // Two levels refine one queue
  // ---------------------------------------------------------------------------

  /** Filling `a + b` is filling `a` and, if that used `a` up, going on with `b`. */
  lemma {:induction false} SweepConcat(mode: STPMode, t: OrderView, a: seq<OrderView>, b: seq<OrderView>)
    ensures
      var x := Sweep(mode, t, a);
      Sweep(mode, t, a + b) ==
        if x.stopped || x.queue != [] then x.(queue := x.queue + b)
        else
          var y := Sweep(mode, x.taker, b);
          Outcome(y.taker, x.fills + y.fills, x.gone + y.gone, y.queue, y.stopped)
    decreases |a|
  {
    if a == [] {
      assert a + b == b;
      var y := Sweep(mode, t, b);
      assert [] + y.fills == y.fills && [] + y.gone == y.gone;
    } else {
      assert (a + b)[0] == a[0] && (a + b)[1..] == a[1..] + b;
      if t.Open() <= 0.0 || !Crosses(t, a[0].price) {
      } else if SelfTrade(mode, t, a[0]) {
        if mode.CancelOldest? {
          SweepConcat(mode, t, a[1..], b);
          PushConcat(a[0].(status := Cancelled), Sweep(mode, t, a[1..]).gone, Sweep(mode, Sweep(mode, t, a[1..]).taker, b).gone);
        }
      } else {
        var amount := Min(t.Open(), a[0].Open());
        var maker := a[0].Take(amount);
        if maker.filled == maker.qty {
          SweepConcat(mode, t.Take(amount), a[1..], b);
          var x := Sweep(mode, t.Take(amount), a[1..]);
          var y := Sweep(mode, x.taker, b);
          PushConcat(maker, x.gone, y.gone);
          PushConcat(FillOf(a[0], amount), x.fills, y.fills);
        } else {
          assert [maker] + (a + b)[1..] == ([maker] + a[1..]) + b;
        }
      }
    }
  }

  lemma PushConcat<T>(x: T, a: seq<T>, b: seq<T>)
    ensures [x] + (a + b) == ([x] + a) + b
  {}

  lemma {:induction false} FlatPrices(levels: seq<Level>, side: Side, k: nat)
    requires SideInv(levels, side) && k < |Flat(levels)|
    ensures exists i :: 0 <= i < |levels| && RestingOk(Flat(levels)[k], side, levels[i].price)
    decreases |levels|
  {
    if k < |levels[0].orders| {
      assert RestingOk(levels[0].orders[k], side, levels[0].price);
    } else {
      TailInv(levels, side);
      FlatPrices(levels[1..], side, k - |levels[0].orders|);
      var i :| 0 <= i < |levels[1..]| && RestingOk(Flat(levels)[k], side, levels[1..][i].price);
      assert levels[i + 1] == levels[1..][i];
    }
  }

  lemma TailInv(levels: seq<Level>, side: Side)
    requires SideInv(levels, side) && levels != []
    ensures SideInv(levels[1..], side)
  {}

  /** Behind a level that does not cross, nothing crosses. */
  lemma NothingCrosses(t: OrderView, levels: seq<Level>)
    requires SideInv(levels, t.side.Opposite()) && levels != [] && !Crosses(t, levels[0].price)
    ensures forall k :: 0 <= k < |Flat(levels)| ==> !Crosses(t, Flat(levels)[k].price)
    ensures forall i :: 0 <= i < |levels| ==> !Crosses(t, levels[i].price)
  {
    forall k | 0 <= k < |Flat(levels)| ensures !Crosses(t, Flat(levels)[k].price) {
      FlatPrices(levels, t.side.Opposite(), k);
    }
  }

  /** The two-level matching walk is the greedy fill of the flat price-time queue: same trades,
      same incoming order, same departures, same residual queue. */
  lemma {:induction false} LevelsRefineQueue(mode: STPMode, t: OrderView, levels: seq<Level>)
    requires SideInv(levels, t.side.Opposite())
    ensures
      var l := SweepLevels(mode, t, levels);
      Sweep(mode, t, Flat(levels)) == Outcome(l.taker, l.fills, l.gone, Flat(l.levels), l.stopped)
    decreases |levels|
  {
    if levels == [] || t.Open() <= 0.0 {
    } else if !Crosses(t, levels[0].price) {
      NothingCrosses(t, levels);
    } else {
      SweepConcat(mode, t, levels[0].orders, Flat(levels[1..]));
      SweepKeepsTerms(mode, t, levels[0].orders);
      var o := Sweep(mode, t, levels[0].orders);
      if o.stopped || o.queue != [] {
        assert ([Level(levels[0].price, o.queue)] + levels[1..])[1..] == levels[1..];
      } else {
        TailInv(levels, t.side.Opposite());
        LevelsRefineQueue(mode, o.taker, levels[1..]);
      }
    }
  }

  /** Matching changes the filled quantity and the status of the incoming order, nothing else. */
  predicate SameTerms(a: OrderView, b: OrderView) {
    a.(filled := b.filled, status := b.status) == b
  }

  lemma {:induction false} SweepKeepsTerms(mode: STPMode, t: OrderView, q: seq<OrderView>)
    ensures SameTerms(t, Sweep(mode, t, q).taker)
    decreases |q|
  {
    if q != [] {
      SweepKeepsTerms(mode, t, q[1..]);
      SweepKeepsTerms(mode, t.Take(Min(t.Open(), q[0].Open())), q[1..]);
    }
  }

  // ---------------------------------------------------------------------------
  // Who trades, and for how much
  // ---------------------------------------------------------------------------

  function BeforeOwn(user: string, q: seq<OrderView>): seq<OrderView> {
    if q == [] || q[0].user == user then [] else [q[0]] + BeforeOwn(user, q[1..])
  }

  function Others(user: string, q: seq<OrderView>): seq<OrderView> {
    if q == [] then []
    else if q[0].user == user then Others(user, q[1..])
    else [q[0]] + Others(user, q[1..])
  }

  /** The resting orders an incoming order may trade with, in the order in which it meets them. */
  function Eligible(mode: STPMode, t: OrderView, q: seq<OrderView>): seq<OrderView> {
    match mode
    case Allow => Crossing(t, q)
    case CancelOldest => Others(t.user, Crossing(t, q))
    case _ => BeforeOwn(t.user, Crossing(t, q))
  }

  /** Handing out `amount` along a queue, first come first served. */
  function Allot(amount: real, q: seq<OrderView>): seq<Fill>
    decreases |q|
  {
    if q == [] || amount <= 0.0 then []
    else [FillOf(q[0], Min(amount, q[0].Open()))] + Allot(amount - Min(amount, q[0].Open()), q[1..])
  }

  predicate AllOpen(q: seq<OrderView>) {
    forall i :: 0 <= i < |q| ==> 0.0 <= q[i].filled < q[i].qty
  }

  lemma AllotNothing(amount: real, q: seq<OrderView>)
    requires amount <= 0.0
    ensures Allot(amount, q) == []
  {}

  /** The fills of a sweep are the first-come-first-served allotment over the eligible orders. */
  lemma {:induction false} FillsAreAllotted(mode: STPMode, t: OrderView, q: seq<OrderView>)
    requires AllOpen(q)
    ensures Sweep(mode, t, q).fills == Allot(t.Open(), Eligible(mode, t, q))
    decreases |q|
  {
    if q == [] || !Crosses(t, q[0].price) {
    } else if t.Open() <= 0.0 {
      AllotNothing(t.Open(), Eligible(mode, t, q));
    } else {
      assert AllOpen(q[1..]);
      assert Crossing(t, q)[1..] == Crossing(t, q[1..]);
      if SelfTrade(mode, t, q[0]) {
        if mode.CancelOldest? { FillsAreAllotted(mode, t, q[1..]); }
      } else {
        var amount := Min(t.Open(), q[0].Open());
        assert Eligible(mode, t, q) == [q[0]] + Eligible(mode, t, q[1..]);
        assert t.Take(amount).Open() == t.Open() - amount;
        if q[0].Take(amount).filled == q[0].qty {
          FillsAreAllotted(mode, t.Take(amount), q[1..]);
          SameEligible(mode, t, t.Take(amount), q[1..]);
        } else {
          AllotNothing(t.Open() - amount, Eligible(mode, t, q[1..]));
        }
      }
    }
  }

  lemma {:induction false} SameEligible(mode: STPMode, t: OrderView, t': OrderView, q: seq<OrderView>)
    requires SameTerms(t, t')
    ensures Crossing(t, q) == Crossing(t', q) && Eligible(mode, t, q) == Eligible(mode, t', q)
    decreases |q|
  {
    if q != [] { SameEligible(mode, t, t', q[1..]); }
  }

  function FillSum(fills: seq<Fill>): real {
    if fills == [] then 0.0 else fills[0].qty + FillSum(fills[1..])
  }

  lemma {:induction false} AllotSum(amount: real, q: seq<OrderView>)
    requires AllOpen(q) && amount >= 0.0
    ensures FillSum(Allot(amount, q)) == Min(amount, OpenSum(q)) && OpenSum(q) >= 0.0
    decreases |q|
  {
    if q != [] {
      assert AllOpen(q[1..]);
      AllotSum(amount - Min(amount, q[0].Open()), q[1..]);
    }
  }

  lemma {:induction false} EligibleOpen(mode: STPMode, t: OrderView, q: seq<OrderView>)
    requires AllOpen(q)
    ensures AllOpen(Crossing(t, q)) && AllOpen(BeforeOwn(t.user, q)) && AllOpen(Others(t.user, q))
    decreases |q|
  {
    if q != [] {
      assert AllOpen(q[1..]);
      EligibleOpen(mode, t, q[1..]);
    }
  }

  lemma {:induction false} SweepFilled(mode: STPMode, t: OrderView, q: seq<OrderView>)
    ensures
      var o := Sweep(mode, t, q);
      o.taker.filled == t.filled + FillSum(o.fills)
    decreases |q|
  {
    if q != [] {
      SweepFilled(mode, NextTaker(mode, t, q[0]), q[1..]);
    }
  }

  /** Total filled is the smaller of what is asked and what is eligible. */
  lemma FilledIsMin(mode: STPMode, t: OrderView, q: seq<OrderView>)
    requires AllOpen(q) && t.Open() >= 0.0
    ensures
      var o := Sweep(mode, t, q);
      o.taker.filled - t.filled == FillSum(o.fills) == Min(t.Open(), OpenSum(Eligible(mode, t, q)))
  {
    SweepFilled(mode, t, q);
    FillsAreAllotted(mode, t, q);
    EligibleOpen(mode, t, q);
    EligibleOpen(mode, t, Crossing(t, q));
    AllotSum(t.Open(), Eligible(mode, t, q));
  }

  /** Every fill is for a positive quantity at a resting price the incoming order accepts, and,
      unless self-trades are allowed, against another user. */
  lemma {:induction false} FillsAreFair(mode: STPMode, t: OrderView, q: seq<OrderView>)
    requires AllOpen(q)
    ensures forall k :: 0 <= k < |Sweep(mode, t, q).fills| ==>
      var f := Sweep(mode, t, q).fills[k];
      f.qty > 0.0 && Crosses(t, f.price) && (mode.Allow? || f.makerUser != t.user) &&
      exists i :: 0 <= i < |q| && f.makerId == q[i].id && f.makerUser == q[i].user && f.price == q[i].price
    decreases |q|
  {
    if q != [] {
      assert AllOpen(q[1..]);
      var next := t.Take(Min(t.Open(), q[0].Open()));
      FillsAreFair(mode, t, q[1..]);
      FillsAreFair(mode, next, q[1..]);
      forall k | 0 <= k < |Sweep(mode, t, q).fills|
        ensures
          var f := Sweep(mode, t, q).fills[k];
          f.qty > 0.0 && Crosses(t, f.price) && (mode.Allow? || f.makerUser != t.user) &&
          exists i :: 0 <= i < |q| && f.makerId == q[i].id && f.makerUser == q[i].user && f.price == q[i].price
      {
        var f := Sweep(mode, t, q).fills[k];
        if f == FillOf(q[0], Min(t.Open(), q[0].Open())) && f.qty > 0.0 && !SelfTrade(mode, t, q[0]) && Crosses(t, q[0].price) {
        } else {
          assert f in Sweep(mode, t, q[1..]).fills || f in Sweep(mode, next, q[1..]).fills;
          var i :| 0 <= i < |q[1..]| && f.makerId == q[1..][i].id && f.makerUser == q[1..][i].user && f.price == q[1..][i].price;
          assert q[i + 1] == q[1..][i];
        }
      }
    }
  }

  // ---------------------------------------------------------------------------
  // What happens to the resting orders
  // ---------------------------------------------------------------------------

  function FilledOn(fills: seq<Fill>, id: string): real {
    if fills == [] then 0.0
    else (if fills[0].makerId == id then fills[0].qty else 0.0) + FilledOn(fills[1..], id)
  }

  predicate DistinctIds(q: seq<OrderView>) {
    forall i, j :: 0 <= i < j < |q| ==> q[i].id != q[j].id
  }

  /** An order that is not in the queue is not filled. */
  lemma {:induction false} StrangersUntouched(mode: STPMode, t: OrderView, q: seq<OrderView>, id: string)
    requires forall i :: 0 <= i < |q| ==> q[i].id != id
    ensures FilledOn(Sweep(mode, t, q).fills, id) == 0.0
    decreases |q|
  {
    if q != [] {
      StrangersUntouched(mode, t, q[1..], id);
      StrangersUntouched(mode, t.Take(Min(t.Open(), q[0].Open())), q[1..], id);
    }
  }

  /** The orders of the queue after a sweep, the departed ones first. */
  function After(o: Outcome): seq<OrderView> { o.gone + o.queue }

  /** One step of a sweep that meets the head of the queue and goes on behind it. */
  predicate Steps(mode: STPMode, t: OrderView, q: seq<OrderView>, head: OrderView, next: OrderView) {
    q != [] && t.Open() > 0.0 && Crosses(t, q[0].price) &&
    if SelfTrade(mode, t, q[0]) then mode.CancelOldest? && head == q[0].(status := Cancelled) && next == t
    else
      var amount := Min(t.Open(), q[0].Open());
      head == q[0].Take(amount) && next == t.Take(amount) && head.filled == head.qty
  }

  lemma StepAfter(mode: STPMode, t: OrderView, q: seq<OrderView>, head: OrderView, next: OrderView)
    requires Steps(mode, t, q, head, next)
    ensures After(Sweep(mode, t, q)) == [head] + After(Sweep(mode, next, q[1..]))
    ensures Sweep(mode, t, q).gone == [head] + Sweep(mode, next, q[1..]).gone
    ensures Sweep(mode, t, q).queue == Sweep(mode, next, q[1..]).queue
  {
    PushConcat(head, Sweep(mode, next, q[1..]).gone, Sweep(mode, next, q[1..]).queue);
  }

  /** The head of the queue after a sweep, and what it leaves for the rest. */
  function HeadAfter(mode: STPMode, t: OrderView, r: OrderView): OrderView {
    if t.Open() <= 0.0 || !Crosses(t, r.price) then r
    else if SelfTrade(mode, t, r) then
      if mode.CancelNewest? then r else r.(status := Cancelled)
    else r.Take(Min(t.Open(), r.Open()))
  }

  function NextTaker(mode: STPMode, t: OrderView, r: OrderView): OrderView {
    if SelfTrade(mode, t, r) then t else t.Take(Min(t.Open(), r.Open()))
  }

  lemma AfterSplits(mode: STPMode, t: OrderView, q: seq<OrderView>)
    requires q != []
    ensures
      var head := HeadAfter(mode, t, q[0]);
      var next := NextTaker(mode, t, q[0]);
      if Steps(mode, t, q, head, next) then
        After(Sweep(mode, t, q)) == [head] + After(Sweep(mode, next, q[1..]))
      else
        After(Sweep(mode, t, q)) == [head] + q[1..] && |Sweep(mode, t, q).gone| <= 1
  {
    var head := HeadAfter(mode, t, q[0]);
    var next := NextTaker(mode, t, q[0]);
    if Steps(mode, t, q, head, next) {
      StepAfter(mode, t, q, head, next);
    } else {
      assert q == [q[0]] + q[1..];
    }
  }

  lemma {:induction false} SweepKeepsCount(mode: STPMode, t: OrderView, q: seq<OrderView>)
    ensures |After(Sweep(mode, t, q))| == |q|
    decreases |q|
  {
    if q != [] {
      AfterSplits(mode, t, q);
      SweepKeepsCount(mode, NextTaker(mode, t, q[0]), q[1..]);
    }
  }

  /** The fills a sweep makes on the head of the queue. */
  lemma HeadFills(mode: STPMode, t: OrderView, q: seq<OrderView>)
    requires AllOpen(q) && DistinctIds(q) && q != []
    ensures SameTerms(q[0], HeadAfter(mode, t, q[0]))
    ensures HeadAfter(mode, t, q[0]).filled == q[0].filled + FilledOn(Sweep(mode, t, q).fills, q[0].id)
  {
    var head, next := HeadAfter(mode, t, q[0]), NextTaker(mode, t, q[0]);
    var fills := Sweep(mode, t, q).fills;
    assert FilledOn([], q[0].id) == 0.0;
    if Steps(mode, t, q, head, next) {
      StrangersUntouched(mode, next, q[1..], q[0].id);
      assert SelfTrade(mode, t, q[0]) || fills[1..] == Sweep(mode, next, q[1..]).fills;
    } else {
      assert fills == [] || (fills == [FillOf(q[0], Min(t.Open(), q[0].Open()))] && fills[1..] == []);
    }
  }

  /** The fills a sweep makes on orders behind the head. */
  lemma OtherFills(mode: STPMode, t: OrderView, q: seq<OrderView>, id: string)
    requires q != [] && id != q[0].id
    ensures
      var head, next := HeadAfter(mode, t, q[0]), NextTaker(mode, t, q[0]);
      FilledOn(Sweep(mode, t, q).fills, id) ==
        if Steps(mode, t, q, head, next) then FilledOn(Sweep(mode, next, q[1..]).fills, id) else 0.0
  {
    var head, next := HeadAfter(mode, t, q[0]), NextTaker(mode, t, q[0]);
    var fills := Sweep(mode, t, q).fills;
    assert FilledOn([], id) == 0.0;
    if Steps(mode, t, q, head, next) {
      assert SelfTrade(mode, t, q[0]) || fills[1..] == Sweep(mode, next, q[1..]).fills;
    } else {
      assert fills == [] || (fills == [FillOf(q[0], Min(t.Open(), q[0].Open()))] && fills[1..] == []);
    }
  }

  /** Conservation, order by order: nobody is lost or invented, terms never change, and each
      order has gained exactly the fills made on it. */
  lemma {:induction false} RestingConserved(mode: STPMode, t: OrderView, q: seq<OrderView>, i: nat)
    requires AllOpen(q) && DistinctIds(q) && i < |q|
    ensures |After(Sweep(mode, t, q))| == |q|
    ensures SameTerms(q[i], After(Sweep(mode, t, q))[i])
    ensures After(Sweep(mode, t, q))[i].filled == q[i].filled + FilledOn(Sweep(mode, t, q).fills, q[i].id)
    decreases |q|
  {
    hide Sweep, Steps, HeadAfter, NextTaker, FilledOn, After;
    SweepKeepsCount(mode, t, q);
    AfterSplits(mode, t, q);
    if i == 0 {
      HeadFills(mode, t, q);
    } else {
      RestingConserved(mode, NextTaker(mode, t, q[0]), q[1..], i - 1);
      assert q[1..][i - 1] == q[i] && q[i].id != q[0].id;
      OtherFills(mode, t, q, q[i].id);
    }
  }

  /** Why an order leaves the queue: it is completely filled, or it is the incoming user's own
      order cancelled by self-trade prevention.  Whoever stays is still open. */
  lemma {:induction false} DeparturesExplained(mode: STPMode, t: OrderView, q: seq<OrderView>)
    requires AllOpen(q)
    ensures AllOpen(Sweep(mode, t, q).queue)
    ensures forall i :: 0 <= i < |Sweep(mode, t, q).gone| ==>
      var g := Sweep(mode, t, q).gone[i];
      (g.status.Filled? && g.filled == g.qty) ||
      (g.status.Cancelled? && g.user == t.user && g.filled < g.qty && (mode.CancelOldest? || mode.CancelBoth?))
    decreases |q|
  {
    if q != [] {
      assert AllOpen(q[1..]);
      var head, next := HeadAfter(mode, t, q[0]), NextTaker(mode, t, q[0]);
      if Steps(mode, t, q, head, next) {
        StepAfter(mode, t, q, head, next);
        DeparturesExplained(mode, next, q[1..]);
      }
    }
  }

  // ---------------------------------------------------------------------------
  // What a sweep leaves, and when it stops
  // ---------------------------------------------------------------------------

  /** The orders a sweep is through with are the first of the queue, in their order: the taker's own ones
      cancelled, the others completely filled. */
  lemma {:induction false} GoneAre(mode: STPMode, t: OrderView, q: seq<OrderView>, i: nat)
    requires i < |Sweep(mode, t, q).gone|
    ensures i < |q|
    ensures Sweep(mode, t, q).gone[i] ==
      if q[i].user == t.user && mode != Allow then q[i].(status := Cancelled) else q[i].(filled := q[i].qty, status := Filled)
    decreases |q|
  {
    var head, next := HeadAfter(mode, t, q[0]), NextTaker(mode, t, q[0]);
    if Steps(mode, t, q, head, next) {
      StepAfter(mode, t, q, head, next);
      if i > 0 {
        hide Sweep;
        GoneAre(mode, next, q[1..], i - 1);
        assert q[1..][i - 1] == q[i];
      }
    }
  }

  /** The rest of the queue is as it was, except that its head may have the last fill, the one that
      completed the taker. */
  predicate LeftOver(o: Outcome, q: seq<OrderView>) {
    var n := |o.gone|;
    n <= |q| &&
    (o.queue == q[n..] || (n < |q| && o.fills != [] && o.taker.Open() == 0.0 && o.queue == [Parted(q[n], o.fills[|o.fills| - 1])] + q[n + 1..]))
  }

  function Parted(r: OrderView, f: Fill): OrderView { r.(filled := r.filled + f.qty, status := PartiallyFilled) }

  lemma LeftOverBehind(o: Outcome, later: Outcome, q: seq<OrderView>)
    requires q != [] && LeftOver(later, q[1..]) && |o.gone| == 1 + |later.gone| && o.queue == later.queue && o.taker == later.taker
    requires later.fills != [] ==> o.fills != [] && o.fills[|o.fills| - 1] == later.fills[|later.fills| - 1]
    ensures LeftOver(o, q)
  {
    var n := |later.gone|;
    assert q[1..][n..] == q[n + 1..];
    if n < |q[1..]| { assert q[1..][n + 1..] == q[n + 2..] && q[1..][n] == q[n + 1]; }
  }

  lemma {:induction false} QueueLeft(mode: STPMode, t: OrderView, q: seq<OrderView>)
    ensures LeftOver(Sweep(mode, t, q), q)
    decreases |q|
  {
    if q != [] {
      var head, next := HeadAfter(mode, t, q[0]), NextTaker(mode, t, q[0]);
      if Steps(mode, t, q, head, next) {
        QueueLeft(mode, next, q[1..]);
        StepFills(mode, t, q, head, next);
        StepAfter(mode, t, q, head, next);
        hide Sweep, Steps, HeadAfter, NextTaker, Crosses, LeftOver;
        LeftOverBehind(Sweep(mode, t, q), Sweep(mode, next, q[1..]), q);
      } else {
        hide Crossing;
        assert q[0..] == q;
      }
    }
  }

  lemma StepFills(mode: STPMode, t: OrderView, q: seq<OrderView>, head: OrderView, next: OrderView)
    requires Steps(mode, t, q, head, next)
    ensures Sweep(mode, t, q).taker == Sweep(mode, next, q[1..]).taker
    ensures
      var fills, later := Sweep(mode, t, q).fills, Sweep(mode, next, q[1..]).fills;
      fills == (if q[0].user == t.user && mode != Allow then [] else [FillOf(q[0], q[0].Open())]) + later
  {}

  /** When a sweep is stopped: one of the two modes that cancel the taker, an own order within reach, and
      not enough to fill the taker ahead of it.  The taker is then cancelled, whatever stood ahead of the
      own order is gone, and the own order goes exactly when both are cancelled. */
  lemma {:induction false} SweepStops(mode: STPMode, t: OrderView, q: seq<OrderView>)
    requires AllOpen(q)
    ensures
      var o, within, ahead := Sweep(mode, t, q), Crossing(t, q), BeforeOwn(t.user, Crossing(t, q));
      (o.stopped <==> (mode.CancelNewest? || mode.CancelBoth?) && |ahead| < |within| && OpenSum(ahead) < t.Open()) &&
      (o.stopped ==> o.taker.status == Cancelled && |o.gone| == |ahead| + (if mode.CancelBoth? then 1 else 0) && |o.gone| <= |q| && o.queue == q[|o.gone|..])
    decreases |q|
  {
    var ahead := BeforeOwn(t.user, Crossing(t, q));
    EligibleOpen(mode, t, q);
    EligibleOpen(mode, t, Crossing(t, q));
    AllotSum(0.0, ahead);
    if q != [] && Crosses(t, q[0].price) && t.Open() > 0.0 {
      assert AllOpen(q[1..]);
      var head, next := HeadAfter(mode, t, q[0]), NextTaker(mode, t, q[0]);
      assert Crossing(t, q)[1..] == Crossing(t, q[1..]);
      SameEligible(mode, t, next, q[1..]);
      if q[0].user != t.user {
        assert ahead[1..] == BeforeOwn(t.user, Crossing(t, q[1..]));
        EligibleOpen(mode, t, q[1..]);
        EligibleOpen(mode, t, Crossing(t, q[1..]));
        AllotSum(0.0, ahead[1..]);
      }
      if Steps(mode, t, q, head, next) {
        SweepStops(mode, next, q[1..]);
        StepAfter(mode, t, q, head, next);
        var n := |Sweep(mode, next, q[1..]).gone|;
        if n <= |q[1..]| { assert q[1..][n..] == q[n + 1..]; }
      }
    }
  }
}
