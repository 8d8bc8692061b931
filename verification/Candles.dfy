/** Candles: every trade updates one candle per interval, from one minute to one week, and the coarser
    candles are the roll-up of the finer ones. */
module Candles {

  // ---------------------------------------------------------------------------
  // Interval boundaries
  // ---------------------------------------------------------------------------

  /** Times are nanoseconds since the first instant of year 1 (UTC), which was a Monday. */
  const MINUTE := 60_000_000_000

  const DAY := 1440 * MINUTE

  /** 1m, 5m, 15m, 30m, 1h, 4h, 1d, 1w. */
  datatype Interval = M1 | M5 | M15 | M30 | H1 | H4 | D1 | W1

  const INTERVALS := [M1, M5, M15, M30, H1, H4, D1, W1]

  function Minutes(i: Interval): nat {
    match i
    case M1 => 1 case M5 => 5 case M15 => 15 case M30 => 30 case H1 => 60 case H4 => 240 case D1 => 1440 case W1 => 10080
  }

  function Width(i: Interval): (w: nat)
    ensures w > 0
  {
    Minutes(i) * MINUTE
  }

  /** The last multiple of `d` that is not after `t`. */
  function Truncate(t: nat, d: nat): nat
    requires d > 0
  {
    t / d * d
  }

  /** Sunday is 0, as in the calendar library. */
  function Weekday(t: nat): nat { (t / DAY + 1) % 7 }

  /** Opening time of the interval a time falls in; weeks open on Monday. */
  function Open(i: Interval, t: nat): int {
    if i.W1? then
      var weekday := if Weekday(t) == 0 then 7 else Weekday(t);
      Truncate(t, DAY) - (weekday - 1) * DAY
    else Truncate(t, Width(i))
  }

  function Close(i: Interval, t: nat): int { Open(i, t) + Width(i) }

  lemma Division(t: nat, d: nat)
    requires d > 0
    ensures t == t / d * d + t % d && t % d < d
  {}

  lemma QuotientUnique(t: nat, d: nat, q: nat, r: nat)
    requires d > 0 && t == q * d + r && r < d
    ensures t / d == q && t % d == r
  {
    Division(t, d);
    var k := t / d - q;
    assert k * d == r - t % d;
    if k >= 1 { Multiple(k, d); }
    if k <= -1 { Multiple(-k, d); }
  }

  lemma Multiple(k: int, d: nat)
    requires k >= 1
    ensures k * d >= d && -(k * d) == (-k) * d
  {
    assert (k - 1) * d >= 0;
  }

  /** The week formula is truncation to seven days. */
  lemma WeekIsTruncation(t: nat)
    ensures Open(W1, t) == Truncate(t, 7 * DAY)
  {
    var days := t / DAY;
    var weeks, rest := days / 7, days % 7;
    Division(t, DAY);
    Division(days, 7);
    WeekdayOf(days);
    var within := rest * DAY + t % DAY;
    Fits(rest, 7, DAY);
    assert t == weeks * (7 * DAY) + within;
    QuotientUnique(t, 7 * DAY, weeks, within);
  }

  lemma WeekdayOf(days: nat)
    ensures (days + 1) % 7 == if days % 7 == 6 then 0 else days % 7 + 1
  {}

  lemma OpenIsTruncation(i: Interval, t: nat)
    ensures Open(i, t) == Truncate(t, Width(i))
  {
    if i.W1? { WeekIsTruncation(t); }
  }

  lemma CellBounds(t: nat, d: nat)
    requires d > 0
    ensures Truncate(t, d) <= t < Truncate(t, d) + d
  {
    Division(t, d);
  }

  /** A cell is known by any of its times. */
  lemma CellOf(t: nat, d: nat, u: nat)
    requires d > 0 && Truncate(t, d) <= u < Truncate(t, d) + d
    ensures Truncate(u, d) == Truncate(t, d)
  {
    QuotientUnique(u, d, t / d, u - t / d * d);
  }

  lemma NextCell(t: nat, d: nat)
    requires d > 0
    ensures Truncate(Truncate(t, d) + d, d) == Truncate(t, d) + d
  {
    var q := t / d;
    assert (q + 1) * d == q * d + d;
    QuotientUnique(q * d + d, d, q + 1, 0);
  }

  lemma CellOrder(t: nat, u: nat, d: nat)
    requires d > 0 && t <= u
    ensures Truncate(t, d) <= Truncate(u, d)
  {
    hide Truncate;
    CellBounds(t, d);
    CellBounds(u, d);
    if Truncate(u, d) <= t { CellOf(u, d, t); }
  }

  /** Two times lie in the same cell of a grid, or in different ones. */
  lemma Cells(t: nat, u: nat, d: nat)
    requires d > 0
    ensures Truncate(t, d) <= t < Truncate(t, d) + d
    ensures Truncate(u, d) == Truncate(t, d) <==> Truncate(t, d) <= u < Truncate(t, d) + d
    ensures t <= u ==> Truncate(t, d) <= Truncate(u, d)
    ensures Truncate(Truncate(t, d) + d, d) == Truncate(t, d) + d
  {
    hide Truncate;
    CellBounds(t, d);
    CellBounds(u, d);
    NextCell(t, d);
    if Truncate(t, d) <= u < Truncate(t, d) + d { CellOf(t, d, u); }
    if t <= u { CellOrder(t, u, d); }
  }

  /** The intervals of one width tile time: each time is in one interval, the interval's times are
      exactly those with the same opening, and the next interval opens where it closes. */
  lemma IntervalsTile(i: Interval, t: nat, u: nat)
    ensures 0 <= Open(i, t) <= t < Close(i, t)
    ensures Open(i, u) == Open(i, t) <==> Open(i, t) <= u < Close(i, t)
    ensures t <= u ==> Open(i, t) <= Open(i, u)
    ensures Open(i, Close(i, t)) == Close(i, t)
  {
    hide Open, Truncate;
    OpenIsTruncation(i, t);
    OpenIsTruncation(i, u);
    Cells(t, u, Width(i));
    TruncateSign(t, Width(i));
    OpenIsTruncation(i, Truncate(t, Width(i)) + Width(i));
  }

  lemma TruncateSign(t: nat, d: nat)
    requires d > 0
    ensures Truncate(t, d) >= 0
  {}

  function Rank(i: Interval): nat {
    match i
    case M1 => 0 case M5 => 1 case M15 => 2 case M30 => 3 case H1 => 4 case H4 => 5 case D1 => 6 case W1 => 7
  }

  /** How many of the finer intervals fit in the coarser one. */
  lemma WidthDivides(i: Interval, j: Interval) returns (k: nat)
    requires Rank(i) <= Rank(j)
    ensures k > 0 && Width(j) == k * Width(i)
  {
    k := Minutes(j) / Minutes(i);
    assert Minutes(j) == k * Minutes(i);
    assert k * Minutes(i) * MINUTE == k * (Minutes(i) * MINUTE);
  }

  lemma CellsNest(t: nat, d: nat, k: nat)
    requires d > 0 && k > 0
    ensures k * d > 0
    ensures Truncate(t, k * d) <= Truncate(t, d) && Truncate(t, d) + d <= Truncate(t, k * d) + k * d
  {
    var q := t / d;
    Division(t, d);
    Division(q, k);
    var p, r := q / k, q % k;
    assert k * d > 0 by { Multiple(k, d); }
    assert q * d == (p * k + r) * d == p * (k * d) + r * d;
    Fits(r, k, d);
    QuotientUnique(t, k * d, p, r * d + t % d);
  }

  lemma Fits(r: nat, k: nat, d: nat)
    requires r < k
    ensures 0 <= r * d && r * d + d <= k * d
  {
    assert (k - r - 1) * d >= 0;
    assert (k - r - 1) * d == k * d - r * d - d;
  }

  /** Finer intervals nest in coarser ones, and an interval opens in the coarser interval of its times. */
  lemma IntervalsNest(i: Interval, j: Interval, t: nat)
    requires Rank(i) <= Rank(j)
    ensures 0 <= Open(j, t) <= Open(i, t) && Close(i, t) <= Close(j, t)
    ensures Open(j, Open(i, t)) == Open(j, t)
  {
    hide Open, Truncate, Width;
    var k := WidthDivides(i, j);
    OpenIsTruncation(i, t);
    OpenIsTruncation(j, t);
    CellsNest(t, Width(i), k);
    IntervalsTile(i, t, t);
    IntervalsTile(j, t, Open(i, t));
  }

  // ---------------------------------------------------------------------------
  // Candles
  // ---------------------------------------------------------------------------

  /** A value rounded to 8 decimals, in units of the eighth decimal; halves away from zero. */
  function Round8(v: real): int {
    if v >= 0.0 then (v * 100000000.0 + 0.5).Floor else -(-v * 100000000.0 + 0.5).Floor
  }

  function Unit8(n: int): real { n as real / 100000000.0 }

  /** A trade after rounding: price and quantity in units of the eighth decimal. */
  datatype Trade = Trade(time: nat, price: nat, qty: nat)

  /** Price times quantity. */
  function Amount(t: Trade): real { Unit8(t.price) * Unit8(t.qty) }

  function Quote(t: Trade): int { Round8(Amount(t)) }

  datatype Candle = Candle(
    open: int, high: int, low: int, close: int, baseVolume: int, quoteVolume: int, trades: nat, openTime: int)

  function First(t: Trade, openTime: int): Candle {
    Candle(t.price, t.price, t.price, t.price, t.qty, Quote(t), 1, openTime)
  }

  function Max(a: int, b: int): int { if b > a then b else a }

  function Min(a: int, b: int): int { if b < a then b else a }

  /** The volumes are rounded again after every addition. */
  function Next(c: Candle, t: Trade): Candle {
    c.(high := Max(c.high, t.price), low := Min(c.low, t.price), close := t.price,
       baseVolume := Round8(Unit8(c.baseVolume) + Unit8(t.qty)),
       quoteVolume := Round8(Unit8(c.quoteVolume) + Amount(t)),
       trades := c.trades + 1)
  }

  datatype Slot = Slot(interval: Interval, openTime: int)

  type Rows = map<Slot, Candle>

  function SlotOf(i: Interval, t: Trade): Slot { Slot(i, Open(i, t.time)) }

  /** The candle of one interval after one trade. */
  function Update(rows: Rows, i: Interval, t: Trade): Rows {
    var s := SlotOf(i, t);
    rows[s := if s in rows then Next(rows[s], t) else First(t, s.openTime)]
  }

  /** What the insert makes of a candle that is there but could not be read. */
  function Merged(c: Candle, t: Trade): Candle {
    c.(high := t.price, low := t.price, close := t.price, baseVolume := c.baseVolume + t.qty,
       quoteVolume := c.quoteVolume + Quote(t), trades := c.trades + 1)
  }

  /** The candles after a trade, one of them perhaps unread. */
  function Write(rows: Rows, i: Interval, t: Trade, unread: bool): Rows {
    if unread && SlotOf(i, t) in rows then rows[SlotOf(i, t) := Merged(rows[SlotOf(i, t)], t)] else Update(rows, i, t)
  }

  function WriteAll(rows: Rows, todo: seq<Interval>, t: Trade, unread: set<Interval>): Rows
    decreases |todo|
  {
    if todo == [] then rows else WriteAll(Write(rows, todo[0], t, todo[0] in unread), todo[1..], t, unread)
  }

  function UpdateAll(rows: Rows, todo: seq<Interval>, t: Trade): Rows
    decreases |todo|
  {
    if todo == [] then rows else UpdateAll(Update(rows, todo[0], t), todo[1..], t)
  }

  /** The intervals stored before the one at which the database fails. */
  function Before(failAt: nat): seq<Interval> {
    if failAt < |INTERVALS| then INTERVALS[..failAt] else INTERVALS
  }

  /** All candles after a list of trades. */
  function RowsAfter(ts: seq<Trade>): Rows {
    if ts == [] then map[] else UpdateAll(RowsAfter(ts[..|ts| - 1]), INTERVALS, ts[|ts| - 1])
  }

  // ---------------------------------------------------------------------------
  // Rounding does not accumulate
  // ---------------------------------------------------------------------------

  /** Rounding a sum of rounded values adds nothing. */
  lemma RoundShift(n: nat, v: real)
    requires v >= 0.0
    ensures Round8(Unit8(n) + v) == n + Round8(v)
  {
    assert Unit8(n) * 100000000.0 == n as real;
    assert (Unit8(n) + v) * 100000000.0 + 0.5 == n as real + (v * 100000000.0 + 0.5);
  }

  lemma RoundUnit(n: nat)
    ensures Round8(Unit8(n)) == n
  {
    assert Unit8(n) * 100000000.0 == n as real;
  }

  lemma NextVolumes(c: Candle, t: Trade)
    requires c.baseVolume >= 0 && c.quoteVolume >= 0
    ensures Next(c, t).baseVolume == c.baseVolume + t.qty && Next(c, t).quoteVolume == c.quoteVolume + Quote(t) && Quote(t) >= 0
  {
    RoundShift(c.baseVolume, Unit8(t.qty));
    RoundUnit(t.qty);
    ProductSign(Unit8(t.price), Unit8(t.qty));
    RoundShift(c.quoteVolume, Amount(t));
  }

  /** A failed read does no harm exactly when the candle has traded at this one price only. */
  lemma FailedReadIff(rows: Rows, i: Interval, t: Trade)
    requires SlotOf(i, t) in rows
    requires var c := rows[SlotOf(i, t)]; c.baseVolume >= 0 && c.quoteVolume >= 0 && c.low <= c.high
    ensures Write(rows, i, t, true) == Update(rows, i, t) <==>
      rows[SlotOf(i, t)].low == t.price == rows[SlotOf(i, t)].high
  {
    hide Round8, Unit8, Open, Amount;
    var s, c := SlotOf(i, t), rows[SlotOf(i, t)];
    NextVolumes(c, t);
    assert Write(rows, i, t, true)[s] == Merged(c, t) && Update(rows, i, t)[s] == Next(c, t);
  }

  /** Without failed reads the candles are those of `UpdateAll`. */
  lemma {:induction false} AllRead(rows: Rows, todo: seq<Interval>, t: Trade)
    ensures WriteAll(rows, todo, t, {}) == UpdateAll(rows, todo, t)
    decreases |todo|
  {
    hide Update;
    if todo != [] { AllRead(Update(rows, todo[0], t), todo[1..], t); }
  }

  lemma ProductSign(a: real, b: real)
    requires a >= 0.0 && b >= 0.0
    ensures a * b >= 0.0 && Round8(a * b) >= 0
  {}

  // ---------------------------------------------------------------------------
  // Roll-up
  // ---------------------------------------------------------------------------

  /** Candles in time order as one candle: first open, last close, extremes, sums. */
  function Combine(a: Candle, b: Candle): Candle {
    Candle(a.open, Max(a.high, b.high), Min(a.low, b.low), b.close, a.baseVolume + b.baseVolume,
           a.quoteVolume + b.quoteVolume, a.trades + b.trades, a.openTime)
  }

  function RollUp(cs: seq<Candle>): Candle
    requires cs != []
  {
    if |cs| == 1 then cs[0] else Combine(RollUp(cs[..|cs| - 1]), cs[|cs| - 1])
  }

  predicate SoundCandle(c: Candle) { c.baseVolume >= 0 && c.quoteVolume >= 0 }

  lemma {:induction false} RollUpSound(cs: seq<Candle>)
    requires cs != [] && forall k :: 0 <= k < |cs| ==> SoundCandle(cs[k])
    ensures SoundCandle(RollUp(cs))
    decreases |cs|
  {
    if |cs| > 1 { RollUpSound(cs[..|cs| - 1]); }
  }

  /** The same candle under another opening time. */
  function At(c: Candle, openTime: int): Candle { c.(openTime := openTime) }

  /** Updating the last of several candles updates their roll-up. */
  lemma RollUpNext(cs: seq<Candle>, t: Trade)
    requires cs != [] && forall k :: 0 <= k < |cs| ==> SoundCandle(cs[k])
    ensures RollUp(cs[|cs| - 1 := Next(cs[|cs| - 1], t)]) == Next(RollUp(cs), t)
  {
    hide Round8, Unit8, Quote;
    var n := |cs| - 1;
    var after := cs[n := Next(cs[n], t)];
    RollUpSound(cs);
    NextVolumes(cs[n], t);
    NextVolumes(RollUp(cs), t);
    if n > 0 { assert after[..n] == cs[..n]; }
  }

  /** A new candle behind several ones is one more trade for their roll-up. */
  lemma RollUpFirst(cs: seq<Candle>, t: Trade, openTime: int)
    requires cs != [] && forall k :: 0 <= k < |cs| ==> SoundCandle(cs[k])
    ensures RollUp(cs + [First(t, openTime)]) == Next(RollUp(cs), t)
  {
    hide Round8, Unit8, Quote;
    RollUpSound(cs);
    NextVolumes(RollUp(cs), t);
    assert (cs + [First(t, openTime)])[..|cs|] == cs;
  }

  // ---------------------------------------------------------------------------
  // The stored candles of one interval, in time order
  // ---------------------------------------------------------------------------

  predicate InOrder(ts: seq<Trade>) { forall k, l :: 0 <= k < l < |ts| ==> ts[k].time <= ts[l].time }

  /** The candles of an interval, oldest first: a trade updates the last one or opens a new one. */
  function Series(i: Interval, ts: seq<Trade>): seq<Candle> {
    if ts == [] then []
    else
      var before, t := Series(i, ts[..|ts| - 1]), ts[|ts| - 1];
      var openTime := Open(i, t.time);
      if before != [] && before[|before| - 1].openTime == openTime
      then before[|before| - 1 := Next(before[|before| - 1], t)]
      else before + [First(t, openTime)]
  }

  predicate Rising(cs: seq<Candle>) { forall k, l :: 0 <= k < l < |cs| ==> cs[k].openTime < cs[l].openTime }

  predicate NoRepeat(todo: seq<Interval>) { forall k, l :: 0 <= k < l < |todo| ==> todo[k] != todo[l] }

  /** Updating all intervals updates each one by itself. */
  lemma {:induction false} EachInterval(rows: Rows, todo: seq<Interval>, t: Trade, i: Interval, openTime: int)
    requires NoRepeat(todo)
    ensures
      var s := Slot(i, openTime);
      var after := UpdateAll(rows, todo, t);
      var alone := if i in todo then Update(rows, i, t) else rows;
      (s in after <==> s in alone) && (s in after ==> after[s] == alone[s])
    decreases |todo|
  {
    hide Open, Next, First;
    if todo != [] {
      EachInterval(Update(rows, todo[0], t), todo[1..], t, i, openTime);
    }
  }

  lemma EveryInterval(i: Interval)
    ensures i in INTERVALS && NoRepeat(INTERVALS)
  {
    assert INTERVALS[Rank(i)] == i;
    assert forall k :: 0 <= k < |INTERVALS| ==> Rank(INTERVALS[k]) == k;
  }

  lemma RowsStep(ts: seq<Trade>, i: Interval, openTime: int)
    requires ts != []
    ensures
      var s := Slot(i, openTime);
      var after := RowsAfter(ts);
      var alone := Update(RowsAfter(ts[..|ts| - 1]), i, ts[|ts| - 1]);
      (s in after <==> s in alone) && (s in after ==> after[s] == alone[s])
  {
    hide Update, Open, UpdateAll, NoRepeat;
    EveryInterval(i);
    EachInterval(RowsAfter(ts[..|ts| - 1]), INTERVALS, ts[|ts| - 1], i, openTime);
  }

  /** A series is what is stored for its interval, in time order. */
  ghost predicate Stored(i: Interval, cs: seq<Candle>, rows: Rows) {
    Rising(cs) &&
    (forall k :: 0 <= k < |cs| ==>
      SoundCandle(cs[k]) && Slot(i, cs[k].openTime) in rows && rows[Slot(i, cs[k].openTime)] == cs[k]) &&
    forall o :: Slot(i, o) in rows ==> exists k :: 0 <= k < |cs| && cs[k].openTime == o
  }

  lemma SameStored(i: Interval, cs: seq<Candle>, rows: Rows, rows': Rows)
    requires Stored(i, cs, rows)
    requires forall o ::
      (Slot(i, o) in rows <==> Slot(i, o) in rows') && (Slot(i, o) in rows ==> rows'[Slot(i, o)] == rows[Slot(i, o)])
    ensures Stored(i, cs, rows')
  {}

  lemma StoredSound(i: Interval, cs: seq<Candle>, rows: Rows)
    requires Stored(i, cs, rows)
    ensures forall k :: 0 <= k < |cs| ==> SoundCandle(cs[k])
  {}

  /** The series of an interval is what is stored for it, and ends with the latest trade's candle. */
  lemma {:induction false} SeriesIsStored(i: Interval, ts: seq<Trade>)
    requires InOrder(ts)
    ensures
      var cs := Series(i, ts);
      Stored(i, cs, RowsAfter(ts)) && (ts != [] ==> cs != [] && cs[|cs| - 1].openTime == Open(i, ts[|ts| - 1].time))
    decreases |ts|
  {
    hide Open, Next, First, UpdateAll, Update, Stored;
    if ts == [] {
      NothingStored(i);
    } else {
      var before, t := ts[..|ts| - 1], ts[|ts| - 1];
      SeriesIsStored(i, before);
      if before != [] { IntervalsTile(i, before[|before| - 1].time, t.time); }
      forall o ensures
        (Slot(i, o) in Update(RowsAfter(before), i, t) <==> Slot(i, o) in RowsAfter(ts)) &&
        (Slot(i, o) in Update(RowsAfter(before), i, t) ==>
          RowsAfter(ts)[Slot(i, o)] == Update(RowsAfter(before), i, t)[Slot(i, o)])
      {
        RowsStep(ts, i, o);
      }
      SeriesStep(i, Series(i, before), RowsAfter(before), t);
      SameStored(i, Series(i, ts), Update(RowsAfter(before), i, t), RowsAfter(ts));
    }
  }

  lemma NothingStored(i: Interval)
    ensures Stored(i, [], map[])
  {}

  /** The effect of an update on one slot of its interval. */
  lemma UpdateAt(rows: Rows, i: Interval, t: Trade, o: int)
    ensures
      var after := Update(rows, i, t);
      (Slot(i, o) in after <==> Slot(i, o) in rows || o == Open(i, t.time)) &&
      (o == Open(i, t.time) ==> after[Slot(i, o)] == if Slot(i, o) in rows then Next(rows[Slot(i, o)], t) else First(t, o)) &&
      (o != Open(i, t.time) && Slot(i, o) in rows ==> after[Slot(i, o)] == rows[Slot(i, o)])
  {
    hide Open, Next, First;
  }

  /** One trade, on the series and on the stored candles of an interval. */
  lemma SeriesStep(i: Interval, cs: seq<Candle>, rows: Rows, t: Trade)
    requires Stored(i, cs, rows) && (cs != [] ==> cs[|cs| - 1].openTime <= Open(i, t.time))
    ensures
      var n, openTime := |cs| - 1, Open(i, t.time);
      var after := if cs != [] && cs[n].openTime == openTime then cs[n := Next(cs[n], t)] else cs + [First(t, openTime)];
      Stored(i, after, Update(rows, i, t)) && after[|after| - 1].openTime == openTime
  {
    hide Open, Round8, Unit8, Update, Next, First;
    var n, openTime := |cs| - 1, Open(i, t.time);
    var after := if cs != [] && cs[n].openTime == openTime then cs[n := Next(cs[n], t)] else cs + [First(t, openTime)];
    FirstSound(t, openTime);
    if cs != [] { NextSound(cs[n], t); }
    forall k | 0 <= k < |after|
      ensures SoundCandle(after[k]) && Slot(i, after[k].openTime) in Update(rows, i, t) &&
        Update(rows, i, t)[Slot(i, after[k].openTime)] == after[k]
    {
      UpdateAt(rows, i, t, after[k].openTime);
    }
    forall o | Slot(i, o) in Update(rows, i, t) ensures exists k :: 0 <= k < |after| && after[k].openTime == o {
      UpdateAt(rows, i, t, o);
      if o == openTime {
        assert after[|after| - 1].openTime == o;
      } else {
        var k :| 0 <= k < |cs| && cs[k].openTime == o;
        assert after[k].openTime == o;
      }
    }
  }

  lemma FirstSound(t: Trade, openTime: int)
    ensures SoundCandle(First(t, openTime)) && First(t, openTime).openTime == openTime
  {
    hide Round8, Unit8, Amount;
    QuoteSign(t);
  }

  lemma NextSound(c: Candle, t: Trade)
    requires SoundCandle(c)
    ensures SoundCandle(Next(c, t)) && Next(c, t).openTime == c.openTime
  {
    NextVolumes(c, t);
  }

  lemma QuoteSign(t: Trade)
    ensures Quote(t) >= 0
  {
    ProductSign(Unit8(t.price), Unit8(t.qty));
  }

  // ---------------------------------------------------------------------------
  // Coarse candles are roll-ups
  // ---------------------------------------------------------------------------

  /** The candles that lie in the coarser interval opening at `b`. */
  function Within(cs: seq<Candle>, j: Interval, b: int): seq<Candle> {
    if cs == [] then []
    else
      var c := cs[|cs| - 1];
      Within(cs[..|cs| - 1], j, b) + if c.openTime >= 0 && Open(j, c.openTime) == b then [c] else []
  }

  lemma WithinPush(cs: seq<Candle>, c: Candle, j: Interval, b: int)
    ensures Within(cs + [c], j, b) == Within(cs, j, b) + if c.openTime >= 0 && Open(j, c.openTime) == b then [c] else []
  {
    hide Open;
    assert (cs + [c])[..|cs|] == cs;
  }

  lemma {:induction false} WithinSound(cs: seq<Candle>, j: Interval, b: int)
    requires forall k :: 0 <= k < |cs| ==> SoundCandle(cs[k])
    ensures forall k :: 0 <= k < |Within(cs, j, b)| ==> SoundCandle(Within(cs, j, b)[k])
    decreases |cs|
  {
    hide Open;
    if cs != [] { WithinSound(cs[..|cs| - 1], j, b); }
  }

  /** The coarse candle is the roll-up of the finer candles in its interval, if there are any. */
  predicate Rolled(cs: seq<Candle>, j: Interval, b: int, rows: Rows) {
    (Slot(j, b) in rows <==> Within(cs, j, b) != []) &&
    (Slot(j, b) in rows ==> At(RollUp(Within(cs, j, b)), b) == rows[Slot(j, b)])
  }

  /** A trade that updates the last finer candle. */
  lemma RolledNext(cs: seq<Candle>, j: Interval, b: int, rows: Rows, t: Trade)
    requires cs != [] && (forall k :: 0 <= k < |cs| ==> SoundCandle(cs[k])) && Rolled(cs, j, b, rows)
    requires cs[|cs| - 1].openTime >= 0 && Open(j, cs[|cs| - 1].openTime) == Open(j, t.time)
    ensures Rolled(cs[|cs| - 1 := Next(cs[|cs| - 1], t)], j, b, Update(rows, j, t))
  {
    hide Open, Next, First, RollUp, Update, Within, At;
    var n := |cs| - 1;
    var w := Within(cs, j, b);
    NextSound(cs[n], t);
    assert cs[n := Next(cs[n], t)] == cs[..n] + [Next(cs[n], t)] && cs == cs[..n] + [cs[n]];
    WithinPush(cs[..n], cs[n], j, b);
    WithinPush(cs[..n], Next(cs[n], t), j, b);
    WithinSound(cs, j, b);
    UpdateAt(rows, j, t, b);
    if b == Open(j, t.time) {
      assert Within(cs[n := Next(cs[n], t)], j, b) == w[|w| - 1 := Next(w[|w| - 1], t)];
      RollUpNext(w, t);
      AtNext(RollUp(w), t, b);
    }
  }

  lemma AtNext(c: Candle, t: Trade, b: int)
    ensures At(Next(c, t), b) == Next(At(c, b), t)
  {
    hide Round8, Unit8, Amount;
  }

  lemma AtFirst(t: Trade, a: int, b: int)
    ensures At(First(t, a), b) == First(t, b) && First(t, a).openTime == a
  {
    hide Quote;
  }

  lemma RollUpOne(c: Candle)
    ensures RollUp([c]) == c
  {}

  /** A trade that opens a finer candle. */
  lemma RolledFirst(cs: seq<Candle>, i: Interval, j: Interval, b: int, rows: Rows, t: Trade)
    requires (forall k :: 0 <= k < |cs| ==> SoundCandle(cs[k])) && Rolled(cs, j, b, rows)
    requires Open(i, t.time) >= 0 && Open(j, Open(i, t.time)) == Open(j, t.time)
    ensures Rolled(cs + [First(t, Open(i, t.time))], j, b, Update(rows, j, t))
  {
    hide Open, Next, First, RollUp, Update, Within, At;
    var w, first := Within(cs, j, b), First(t, Open(i, t.time));
    AtFirst(t, Open(i, t.time), b);
    WithinPush(cs, first, j, b);
    WithinSound(cs, j, b);
    UpdateAt(rows, j, t, b);
    if b != Open(j, t.time) {
      assert w + [] == w;
    } else if w == [] {
      RollUpOne(first);
      assert w + [first] == [first];
    } else {
      RollUpFirst(w, t, Open(i, t.time));
      AtNext(RollUp(w), t, b);
    }
  }

  /** For trades in time order, every stored candle of a coarser interval is the roll-up of the stored
      finer candles in it: first open, last close, highest high, lowest low, summed volumes and counts;
      and it is stored exactly when there are any. */
  lemma {:induction false} CoarseIsRollUp(i: Interval, j: Interval, ts: seq<Trade>, b: int)
    requires Rank(i) <= Rank(j) && InOrder(ts)
    ensures Rolled(Series(i, ts), j, b, RowsAfter(ts))
    decreases |ts|
  {
    hide Open, Next, First, UpdateAll, Update, Rolled, Within, Stored;
    if ts == [] {
      NothingRolled(j, b);
    } else {
      var before, t := ts[..|ts| - 1], ts[|ts| - 1];
      CoarseIsRollUp(i, j, before, b);
      SeriesIsStored(i, before);
      IntervalsNest(i, j, t.time);
      var cs := Series(i, before);
      StoredSound(i, cs, RowsAfter(before));
      LastOpens(i, cs, before);
      if cs != [] && cs[|cs| - 1].openTime == Open(i, t.time) {
        RolledNext(cs, j, b, RowsAfter(before), t);
      } else {
        RolledFirst(cs, i, j, b, RowsAfter(before), t);
      }
      RowsStep(ts, j, b);
      SameRolled(Series(i, ts), j, b, Update(RowsAfter(before), j, t), RowsAfter(ts));
    }
  }

  lemma LastOpens(i: Interval, cs: seq<Candle>, ts: seq<Trade>)
    requires ts != [] ==> cs != [] && cs[|cs| - 1].openTime == Open(i, ts[|ts| - 1].time)
    ensures ts != [] ==> cs[|cs| - 1].openTime >= 0
  {
    if ts != [] { IntervalsTile(i, ts[|ts| - 1].time, 0); }
  }

  lemma NothingRolled(j: Interval, b: int)
    ensures Rolled([], j, b, map[])
  {}

  lemma SameRolled(cs: seq<Candle>, j: Interval, b: int, rows: Rows, rows': Rows)
    requires Rolled(cs, j, b, rows)
    requires Slot(j, b) in rows <==> Slot(j, b) in rows'
    requires Slot(j, b) in rows ==> rows'[Slot(j, b)] == rows[Slot(j, b)]
    ensures Rolled(cs, j, b, rows')
  {}

  // ---------------------------------------------------------------------------
  // The engine
  // ---------------------------------------------------------------------------

  class CandleEngine {
    var rows: Rows

    constructor ()
      ensures rows == map[]
    {
      rows := map[];
    }

    /** One trade of one market: round it, and update or insert the candle of every interval, up to the
        interval at which the database fails, if any.  A candle that cannot be read counts as missing. */
    method ProcessTrade(price: real, quantity: real, time: nat, unread: set<Interval>, failAt: nat) returns (ok: bool)
      requires price >= 0.0 && quantity >= 0.0
      modifies this
      ensures Round8(price) >= 0 && Round8(quantity) >= 0
      ensures ok <==> failAt >= |INTERVALS|
      ensures rows == WriteAll(old(rows), Before(failAt), Trade(time, Round8(price), Round8(quantity)), unread)
    {
      hide Write, Open, Unit8;
      var t := Trade(time, Round8(price), Round8(quantity));
      for i := 0 to |INTERVALS|
        invariant i <= failAt
        invariant WriteAll(old(rows), Before(failAt), t, unread) == WriteAll(rows, Before(failAt)[i..], t, unread)
      {
        if i == failAt { return false; }
        assert Before(failAt)[i] == INTERVALS[i] && Before(failAt)[i..][1..] == Before(failAt)[i + 1..];
        UpdateCandle(INTERVALS[i], t, INTERVALS[i] in unread);
      }
      ok := true;
    }

    /** Read the candle of an interval, update it field by field or start it, and write it back; the
        insert of a candle that is there after all goes into it. */
    method UpdateCandle(i: Interval, t: Trade, unread: bool)
      modifies this
      ensures rows == Write(old(rows), i, t, unread)
    {
      hide Open, Round8, Unit8, Amount;
      var s := SlotOf(i, t);
      if s in rows && !unread {
        var c := rows[s];
        c := c.(close := t.price);
        if t.price > c.high { c := c.(high := t.price); }
        if t.price < c.low { c := c.(low := t.price); }
        c := c.(baseVolume := Round8(Unit8(c.baseVolume) + Unit8(t.qty)));
        c := c.(quoteVolume := Round8(Unit8(c.quoteVolume) + Amount(t)));
        c := c.(trades := c.trades + 1);
        rows := rows[s := c];
      } else {
        var c := First(t, s.openTime);
        if s in rows {
          c := rows[s].(high := c.high, low := c.low, close := c.close, baseVolume := rows[s].baseVolume + c.baseVolume,
                        quoteVolume := rows[s].quoteVolume + c.quoteVolume, trades := rows[s].trades + c.trades);
        }
        rows := rows[s := c];
      }
    }
  }

  // ---------------------------------------------------------------------------
  // What a candle says about its trades
  // ---------------------------------------------------------------------------

  /** The lengths of the intervals, in seconds, and the weekday on which weeks open. */
  lemma IntervalLengths(t: nat)
    ensures
      var second := 1_000_000_000;
      Close(M1, t) - Open(M1, t) == 60 * second && Close(M5, t) - Open(M5, t) == 300 * second &&
      Close(M15, t) - Open(M15, t) == 900 * second && Close(M30, t) - Open(M30, t) == 1800 * second &&
      Close(H1, t) - Open(H1, t) == 3600 * second && Close(H4, t) - Open(H4, t) == 14400 * second &&
      Close(D1, t) - Open(D1, t) == 86400 * second && Close(W1, t) - Open(W1, t) == 604800 * second
  {
    hide Open;
  }

  /** Rounding is to the nearest eighth decimal. */
  lemma Nearest(v: real)
    ensures -0.5 <= Round8(v) as real - v * 100000000.0 <= 0.5
    ensures v >= 0.0 ==> Round8(v) as real - v * 100000000.0 > -0.5
  {}

  function QtySum(ts: seq<Trade>): int { if ts == [] then 0 else QtySum(ts[..|ts| - 1]) + ts[|ts| - 1].qty }

  /** Price times quantity, in units of the sixteenth decimal. */
  function ValueSum(ts: seq<Trade>): int {
    if ts == [] then 0 else ValueSum(ts[..|ts| - 1]) + ts[|ts| - 1].price * ts[|ts| - 1].qty
  }

  /** A candle of these trades: the first and the last price, the extreme prices, the quantity, the value to
      half a unit for each trade, and their number. */
  predicate Summarizes(c: Candle, ts: seq<Trade>) {
    ts != [] && c.open == ts[0].price && c.close == ts[|ts| - 1].price && c.trades == |ts| &&
    (forall k :: 0 <= k < |ts| ==> c.low <= ts[k].price <= c.high) &&
    (exists k :: 0 <= k < |ts| && ts[k].price == c.high) && (exists k :: 0 <= k < |ts| && ts[k].price == c.low) &&
    c.baseVolume == QtySum(ts) && c.quoteVolume >= 0 &&
    ValueSum(ts) - 50_000_000 * |ts| <= 100_000_000 * c.quoteVolume <= ValueSum(ts) + 50_000_000 * |ts|
  }

  lemma QuoteNear(t: Trade)
    ensures -50_000_000 <= 100_000_000 * Quote(t) - t.price * t.qty <= 50_000_000
  {
    hide Round8;
    var v := Amount(t);
    Nearest(v);
    assert v * 100000000.0 * 100000000.0 == (t.price * t.qty) as real;
  }

  lemma {:induction false} QtySumSign(ts: seq<Trade>)
    ensures QtySum(ts) >= 0
    decreases |ts|
  {
    if ts != [] { QtySumSign(ts[..|ts| - 1]); }
  }

  lemma FirstSummarizes(t: Trade, openTime: int)
    ensures Summarizes(First(t, openTime), [t])
  {
    hide Quote;
    QuoteNear(t);
    QuoteSign(t);
    var one := [t];
    assert one[..|one| - 1] == [];
    assert QtySum([]) == 0 && ValueSum([]) == 0;
    assert QtySum(one) == t.qty && ValueSum(one) == t.price * t.qty;
    assert [t][0].price == First(t, openTime).high;
  }

  lemma NextSummarizes(c: Candle, ts: seq<Trade>, t: Trade)
    requires Summarizes(c, ts)
    ensures Summarizes(Next(c, t), ts + [t])
  {
    hide Quote, Round8, Unit8, Amount;
    var all, n := ts + [t], Next(c, t);
    QtySumSign(ts);
    NextVolumes(c, t);
    QuoteNear(t);
    assert all[..|all| - 1] == ts && all[|ts|] == t;
    var h :| 0 <= h < |ts| && ts[h].price == c.high;
    var l :| 0 <= l < |ts| && ts[l].price == c.low;
    assert all[h].price == c.high && all[l].price == c.low && all[|ts|].price == t.price;
    assert n.high == c.high || n.high == t.price;
    assert n.low == c.low || n.low == t.price;
  }

  /** The trades of an interval that opens at a time. */
  function Inside(i: Interval, openTime: int, ts: seq<Trade>): seq<Trade> {
    if ts == [] then []
    else Inside(i, openTime, ts[..|ts| - 1]) + if Open(i, ts[|ts| - 1].time) == openTime then [ts[|ts| - 1]] else []
  }

  /** A candle is stored exactly for the intervals that saw a trade, and says what its trades were: for any
      trades in any order. */
  lemma {:induction false} StoredSummarizes(i: Interval, ts: seq<Trade>, openTime: int)
    ensures
      var s, inside := Slot(i, openTime), Inside(i, openTime, ts);
      (s in RowsAfter(ts) <==> inside != []) &&
      (s in RowsAfter(ts) ==> Summarizes(RowsAfter(ts)[s], inside) && RowsAfter(ts)[s].openTime == openTime)
    decreases |ts|
  {
    hide Summarizes, UpdateAll, Open, Next, First;
    if ts != [] {
      var before, t := ts[..|ts| - 1], ts[|ts| - 1];
      StoredSummarizes(i, before, openTime);
      RowsStep(ts, i, openTime);
      if Open(i, t.time) == openTime {
        if Slot(i, openTime) in RowsAfter(before) {
          NextSummarizes(RowsAfter(before)[Slot(i, openTime)], Inside(i, openTime, before), t);
          NextOpens(RowsAfter(before)[Slot(i, openTime)], t);
        } else {
          FirstSummarizes(t, openTime);
          FirstOpens(t, openTime);
          assert [] + [t] == [t];
        }
      } else {
        assert Inside(i, openTime, before) + [] == Inside(i, openTime, before);
      }
    }
  }

  lemma NextOpens(c: Candle, t: Trade)
    ensures Next(c, t).openTime == c.openTime
  {}

  lemma FirstOpens(t: Trade, openTime: int)
    ensures First(t, openTime).openTime == openTime
  {}

  /** A failure at the n-th interval leaves the candles of the ones before it, from the finest on, written. */
  lemma StoredBefore(failAt: nat)
    ensures |Before(failAt)| == (if failAt < 8 then failAt else 8)
    ensures Before(failAt) <= [M1, M5, M15, M30, H1, H4, D1, W1]
  {}
}
