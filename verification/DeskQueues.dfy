/** One submission, said on the two flat queues: local match, external match and resting together. */
module DeskQueues {
  import opened Book
  import opened Priority
  import opened BookInvariant
  import opened BookQueues
  import opened Desk
  import opened DeskRuns

  lemma {:induction false} RippleNoStops(w: Watch, fills: seq<Fill>)
    requires w.stops == []
    ensures Ripple(w, fills).stops == [] && Ripple(w, fills).pending == w.pending
    decreases |fills|
  {
    if fills != [] { RippleNoStops(w.See(fills[0].price), fills[1..]); }
  }

  predicate Unnamed(q: seq<OrderView>, id: string) {
    forall i :: 0 <= i < |q| ==> q[i].id != id
  }

  /** Taking out an order that stands between orders of other names. */
  lemma WithoutMiddle(ahead: seq<OrderView>, o: OrderView, behind: seq<OrderView>)
    requires Unnamed(ahead, o.id)
    ensures Has(ahead + [o] + behind, o.id) && Without(ahead + [o] + behind, o.id) == ahead + behind
  {
    assert ahead + [o] + behind == ahead + ([o] + behind);
    WithoutConcat(ahead, [o] + behind, o.id);
    assert ([o] + behind)[0] == o && ([o] + behind)[1..] == behind;
    assert (ahead + [o] + behind)[|ahead|].id == o.id;
  }

  /** What cancelling does to the two queues when no stop is armed. */
  lemma CancelQueues(b: BookView, id: string)
    requires b.watch.stops == []
    ensures
      var (c, found) := Book.Cancel(b, id);
      c.watch.stops == [] && c.watch.pending == b.watch.pending && c.mode == b.mode &&
      (found <==> Has(b.Queue(Buy), id) || Has(b.Queue(Sell), id)) &&
      c.Queue(Buy) == (if Has(b.Queue(Buy), id) then Without(b.Queue(Buy), id) else b.Queue(Buy)) &&
      c.Queue(Sell) == if !Has(b.Queue(Buy), id) && Has(b.Queue(Sell), id) then Without(b.Queue(Sell), id) else b.Queue(Sell)
  {
    FlatWithout(b.bids, id);
    FlatWithout(b.asks, id);
  }

  lemma SweptUnnamed(mode: STPMode, t: OrderView, q: seq<OrderView>, id: string)
    requires Unnamed(q, id)
    ensures Unnamed(Sweep(mode, t, q).queue, id)
  {
    SweepCarries(mode, t, q, (r: OrderView) => r.id != id);
  }

  /** A local match, queue by queue. */
  lemma LocalQueues(b: BookView, o: OrderView) returns (ahead: seq<OrderView>, behind: seq<OrderView>)
    requires SoundBook(b) && OrderOk(o) && !Refused(b, o) && b.watch.stops == []
    ensures
      var x := Sweep(b.mode, o, b.Queue(o.side.Opposite()));
      var m := Match(b, o);
      m.trades == TradesOf(o, x.fills, b.watch.number) && m.order.filled == x.taker.filled &&
      SameTerms(o, m.order) && OrderOk(m.order) && m.book.mode == b.mode &&
      m.book.watch.stops == [] && m.book.watch.pending == b.watch.pending &&
      m.book.Queue(o.side.Opposite()) == x.queue && b.Queue(o.side) == ahead + behind &&
      (m.book.Queue(o.side) == ahead + behind ||
       (m.book.Queue(o.side) == ahead + [m.order] + behind && RestingOk(m.order, o.side, o.price)))
  {
    hide Match, Refused, Sweep, BookInv, Flat, Insert;
    var x := Sweep(b.mode, o, b.Queue(o.side.Opposite()));
    MatchQueues(b, o);
    MatchSound(b, o);
    RippleNoStops(b.watch, x.fills);
    SidesOk(b);
    ahead, behind := InsertPriority(b.On(o.side), Match(b, o).order, o.side);
  }

  lemma SidesOk(b: BookView)
    requires BookInv(b)
    ensures SideInv(b.On(Buy), Buy) && SideInv(b.On(Sell), Sell)
  {}

  /** The whole match: the opposite queue is what the sweep left, the own queue is as before, with
      the order in its place when it stays open. */
  lemma AllQueues(b: BookView, o: OrderView, a: Answers) returns (ahead: seq<OrderView>, behind: seq<OrderView>)
    requires SoundBook(b) && OrderOk(o) && !Refused(b, o) && b.watch.stops == []
    requires Unnamed(b.Queue(Buy), o.id) && Unnamed(b.Queue(Sell), o.id)
    ensures
      var x := Sweep(b.mode, o, b.Queue(o.side.Opposite()));
      var all := MatchAll(b, o, a);
      SameTerms(o, all.order) && OrderOk(all.order) && all.book.mode == b.mode &&
      all.book.watch.stops == [] && all.book.watch.pending == b.watch.pending &&
      all.book.Queue(o.side.Opposite()) == x.queue && b.Queue(o.side) == ahead + behind &&
      (all.book.Queue(o.side) == ahead + behind ||
       (all.book.Queue(o.side) == ahead + [all.order] + behind && RestingOk(all.order, o.side, o.price)))
  {
    hide Match, Refused, Sweep, BookInv, Flat, Insert, Book.Cancel, Without, Rest, ExtSweep, AllOk;
    ahead, behind := LocalQueues(b, o);
    var m := Match(b, o);
    if GoesOut(m.order, a) {
      MatchSound(b, o);
      SweptUnnamed(b.mode, o, b.Queue(o.side.Opposite()), o.id);
      ahead, behind := OutQueues(b, m, o, a, ahead, behind);
    }
  }

  /** Leaving for the external book and coming back. */
  lemma OutQueues(b: BookView, m: Matched, o: OrderView, a: Answers, ahead: seq<OrderView>, behind: seq<OrderView>)
    returns (ahead': seq<OrderView>, behind': seq<OrderView>)
    requires SoundBook(m.book) && m.book.watch.stops == [] && SameTerms(o, m.order) && OrderOk(m.order)
    requires Unnamed(b.Queue(o.side), o.id) && Unnamed(m.book.Queue(o.side.Opposite()), o.id)
    requires b.Queue(o.side) == ahead + behind
    requires m.book.Queue(o.side) == ahead + behind || m.book.Queue(o.side) == ahead + [m.order] + behind
    ensures
      var x := ExtSweep(m.order, a.external);
      var b1 := Book.Cancel(m.book, o.id).0;
      var c := if x.order.filled < x.order.qty && x.order.otype.Limit? then Rest(b1, x.order) else b1;
      SameTerms(o, x.order) && OrderOk(x.order) && c.mode == m.book.mode &&
      c.watch.stops == [] && c.watch.pending == m.book.watch.pending &&
      c.Queue(o.side.Opposite()) == m.book.Queue(o.side.Opposite()) && b.Queue(o.side) == ahead' + behind' &&
      (c.Queue(o.side) == ahead' + behind' ||
       (c.Queue(o.side) == ahead' + [x.order] + behind' && RestingOk(x.order, o.side, o.price)))
  {
    hide BookInv, Flat, Insert, Book.Cancel, Without, ExtSweep, AllOk;
    var x := ExtSweep(m.order, a.external);
    var b1 := Book.Cancel(m.book, o.id).0;
    ExtKeepsTerms(m.order, a.external);
    CancelQueues(m.book, o.id);
    CancelSound(m.book, o.id);
    PartsUnnamed(ahead, behind, o.id);
    WithoutMiddle(ahead, m.order, behind);
    assert b1.Queue(o.side) == b.Queue(o.side);
    assert b1.Queue(o.side.Opposite()) == m.book.Queue(o.side.Opposite());
    SidesOk(b1);
    ahead', behind' := InsertPriority(b1.On(o.side), x.order, o.side);
    RestQueue(b1, x.order);
    RestWatch(b1, x.order);
  }

  lemma PartsUnnamed(ahead: seq<OrderView>, behind: seq<OrderView>, id: string)
    requires Unnamed(ahead + behind, id)
    ensures Unnamed(ahead, id) && Unnamed(behind, id)
  {
    forall i | 0 <= i < |ahead| ensures ahead[i].id != id { assert (ahead + behind)[i] == ahead[i]; }
    forall i | 0 <= i < |behind| ensures behind[i].id != id { assert (ahead + behind)[|ahead| + i] == behind[i]; }
  }

  // ---------------------------------------------------------------------------
  // What orders carry through a submission
  // ---------------------------------------------------------------------------

  lemma SameTermsAfter(b: BookView, o: OrderView)
    requires BookInv(b) && OrderOk(o)
    ensures SameTerms(o, Match(b, o).order)
  {
    SweptSide(b.mode, o, b.On(o.side.Opposite()));
  }

  /** What every order of the book carries, and the incoming order too, is carried through the
      whole match. */
  lemma MatchAllCarries(b: BookView, o: OrderView, a: Answers, p: OrderView -> bool)
    requires SoundBook(b) && OrderOk(o) && Carried(p) && Everywhere(b, p) && p(o)
    ensures Everywhere(MatchAll(b, o, a).book, p)
  {
    hide Match, Everywhere, BookInv, ExtSweep, Cancel, SameIdentity;
    var m := Match(b, o);
    MatchCarries(b, o, p);
    MatchSound(b, o);
    if GoesOut(m.order, a) {
      var x := ExtSweep(m.order, a.external);
      var b1 := Book.Cancel(m.book, o.id).0;
      CancelCarries(m.book, o.id, p);
      CancelSound(m.book, o.id);
      ExtKeepsTerms(m.order, a.external);
      SameTermsAfter(b, o);
      SameTermsIdentity(o, m.order, x.order);
      RestEverywhere(b1, x.order, p);
    }
  }

  lemma SameTermsIdentity(a: OrderView, b: OrderView, c: OrderView)
    requires SameTerms(a, b) && SameTerms(b, c)
    ensures SameIdentity(a, c)
  {}

  lemma RestEverywhere(b: BookView, o: OrderView, p: OrderView -> bool)
    requires SoundBook(b) && Everywhere(b, p) && p(o)
    ensures Everywhere(Rest(b, o), p)
  {
    RestCarries(b, o, p);
    RestWatch(b, o);
  }
}
