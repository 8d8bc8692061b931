/** Futures positions: executions, margin, profit and loss, and the price at which they are liquidated. */
module Positions {

  /** The leverage of a user is never zero or less; without a setting it is 20. */
  type Leverage = r: real | r > 0.0 witness 1.0

  /** A maintenance margin rate. */
  type Rate = r: real | 0.0 <= r < 1.0

  datatype Position = Position(size: real, entry: real, margin: real, leverage: Leverage, mmRate: Rate, realized: real)

  function Abs(x: real): (r: real)
    ensures r >= 0.0 && (r == x || r == -x)
  {
    if x < 0.0 then -x else x
  }

  /** Do two amounts point in opposite directions? */
  predicate Opposed(a: real, b: real) { (a > 0.0 && b < 0.0) || (a < 0.0 && b > 0.0) }

  predicate Aligned(a: real, b: real) { (a > 0.0 && b > 0.0) || (a < 0.0 && b < 0.0) }

  datatype Execution = Execution(change: real, price: real, leverage: Leverage, margin: real, mmRate: Rate)

  function Empty(x: Execution): Position { Position(0.0, 0.0, x.margin, x.leverage, x.mmRate, 0.0) }

  // ---------------------------------------------------------------------------
  // One execution
  // ---------------------------------------------------------------------------

  function Opened(p: Position, x: Execution): Position {
    Position(x.change, x.price, x.margin, x.leverage, x.mmRate, p.realized)
  }

  /** Crossing zero: the old position is closed and the rest opens the other way. */
  function Flipped(p: Position, x: Execution): Position
  {
    Position(p.size + x.change, x.price, Abs(p.size + x.change) * x.price / x.leverage, x.leverage, x.mmRate,
             p.realized + p.size * (x.price - p.entry))
  }

  /** Towards zero: the margin is released in proportion to what is closed. */
  function Reduced(p: Position, x: Execution): Position
    requires p.size != 0.0
  {
    var left := p.margin - Abs(x.change / p.size * p.margin);
    var q := p.(realized := p.realized - x.change * (x.price - p.entry), margin := if left < 0.0 then 0.0 else left,
                size := p.size + x.change);
    if q.size == 0.0 then q.(entry := 0.0, margin := 0.0) else q
  }

  /** Away from zero: the entry price becomes the average. */
  function Added(p: Position, x: Execution): Position
    requires p.size + x.change != 0.0
  {
    p.(entry := (p.size * p.entry + x.change * x.price) / (p.size + x.change), margin := p.margin + x.margin,
       size := p.size + x.change)
  }

  function Recorded(p: Position, x: Execution): Position
  {
    if p.size == 0.0 then Opened(p, x)
    else if Opposed(p.size, x.change) then
      if Opposed(p.size, p.size + x.change) then Flipped(p, x) else Reduced(p, x)
    else if Aligned(p.size, x.change) then Added(p, x)
    else p
  }

  // ---------------------------------------------------------------------------
  // Prices
  // ---------------------------------------------------------------------------

  function Unrealized(p: Position, mark: real): real { p.size * (mark - p.entry) }

  function Collateral(p: Position, mark: real): real { p.margin + Unrealized(p, mark) }

  function Maintenance(p: Position, mark: real): real { Abs(p.size) * mark * p.mmRate }

  function MarginRatio(p: Position, mark: real): real {
    if Collateral(p, mark) <= 0.0 then 999.0 else Maintenance(p, mark) / Collateral(p, mark)
  }

  function LongBankrupt(p: Position): real { p.entry * (1.0 - 1.0 / p.leverage) }

  function ShortBankrupt(p: Position): real { p.entry * (1.0 + 1.0 / p.leverage) }

  function BankruptcyPrice(p: Position): real {
    if p.size > 0.0 then LongBankrupt(p)
    else if p.size < 0.0 then ShortBankrupt(p)
    else 0.0
  }

  function LiquidationPrice(p: Position): real
  {
    if p.size > 0.0 then LongBankrupt(p) / (1.0 - p.mmRate)
    else if p.size < 0.0 then ShortBankrupt(p) / (1.0 + p.mmRate)
    else 0.0
  }

  /** Does the risk evaluation take the position over at this mark price? */
  predicate Liquidates(p: Position, mark: real) { p.size != 0.0 && MarginRatio(p, mark) >= 1.0 }

  // ---------------------------------------------------------------------------
  // The margin is exact
  // ---------------------------------------------------------------------------

  /** An execution as the router records it: the margin is the value over the leverage. */
  predicate Routed(x: Execution, leverage: Leverage, mmRate: Rate) {
    x.change != 0.0 && x.price > 0.0 && x.leverage == leverage && x.mmRate == mmRate &&
    x.margin == Abs(x.change) * x.price / leverage
  }

  /** Margin times leverage is size times entry price. */
  predicate Exact(p: Position, leverage: Leverage, mmRate: Rate) {
    p.margin * leverage == Abs(p.size) * p.entry &&
    (p.size != 0.0 ==> p.leverage == leverage && p.mmRate == mmRate && p.entry > 0.0)
  }

  lemma Quotient(a: real, b: real)
    requires b != 0.0
    ensures a / b * b == a
  {}

  lemma OpenedExact(p: Position, x: Execution, leverage: Leverage, mmRate: Rate)
    requires leverage >= 1.0 && Routed(x, leverage, mmRate)
    ensures Exact(Opened(p, x), leverage, mmRate)
  {
    Quotient(Abs(x.change) * x.price, leverage);
  }

  lemma FlippedExact(p: Position, x: Execution, leverage: Leverage, mmRate: Rate)
    requires leverage >= 1.0 && Routed(x, leverage, mmRate)
    ensures Exact(Flipped(p, x), leverage, mmRate)
  {
    Quotient(Abs(p.size + x.change) * x.price, leverage);
  }

  lemma SignedProduct(a: real, b: real)
    requires b > 0.0
    ensures (a > 0.0 ==> a * b > 0.0) && (a < 0.0 ==> a * b < 0.0)
  {}

  /** The average of two positive prices is positive. */
  lemma AverageEntry(s: real, e: real, c: real, p: real)
    requires Aligned(s, c) && e > 0.0 && p > 0.0
    ensures s + c != 0.0
    ensures
      var avg := (s * e + c * p) / (s + c);
      avg > 0.0 && (s + c) * avg == s * e + c * p
  {
    var avg := (s * e + c * p) / (s + c);
    Quotient(s * e + c * p, s + c);
    SignedProduct(s, e);
    SignedProduct(c, p);
    if avg <= 0.0 { NotPositive(s + c, avg); }
  }

  lemma NotPositive(a: real, b: real)
    requires b <= 0.0
    ensures (a > 0.0 ==> a * b <= 0.0) && (a < 0.0 ==> a * b >= 0.0)
  {}

  lemma AddedExact(p: Position, x: Execution, leverage: Leverage, mmRate: Rate)
    requires leverage >= 1.0 && Routed(x, leverage, mmRate) && Exact(p, leverage, mmRate) && Aligned(p.size, x.change)
    ensures Exact(Added(p, x), leverage, mmRate)
  {
    AverageEntry(p.size, p.entry, x.change, x.price);
    Quotient(Abs(x.change) * x.price, leverage);
    var q := Added(p, x);
    assert q.margin * leverage == p.margin * leverage + x.margin * leverage;
    if p.size > 0.0 {
      assert q.size * q.entry == p.size * p.entry + x.change * x.price;
    } else {
      assert (-q.size) * q.entry == (-p.size) * p.entry + (-x.change) * x.price;
    }
  }

  /** Proportional release leaves the margin of what remains. */
  lemma ProportionLeft(s: real, c: real, m: real)
    requires Opposed(s, c) && !Opposed(s, s + c) && m >= 0.0
    ensures
      var left := m - Abs(c / s * m);
      left >= 0.0 && left * Abs(s) == m * Abs(s + c)
  {
    var k := c / s;
    Quotient(c, s);
    assert k * s == c;
    Fraction(k, s, c);
    NonNegativeTimes(-k, m);
    NonNegativeTimes(1.0 + k, m);
    assert (-k) * m == -(k * m);
    assert Abs(k * m) == -(k * m);
    assert (1.0 + k) * m == m + k * m;
    var left := m + k * m;
    if s > 0.0 {
      assert left * s == m * s + m * (k * s);
    } else {
      assert left * (-s) == m * (-s) + m * (-(k * s));
    }
  }

  lemma NonNegativeTimes(a: real, b: real)
    requires a >= 0.0
    ensures (b >= 0.0 ==> a * b >= 0.0) && (b <= 0.0 ==> a * b <= 0.0)
  {}

  lemma Fraction(k: real, s: real, c: real)
    requires k * s == c && Opposed(s, c) && !Opposed(s, s + c)
    ensures -1.0 <= k < 0.0
  {
    var d := 1.0 + k;
    assert d * s == s + c && d * (-s) == -(d * s);
    if k >= 0.0 { NonNegativeTimes(k, s); }
    if d < 0.0 { SignedProduct(d, Abs(s)); }
  }

  lemma CancelFactor(a: real, b: real, c: real)
    requires c > 0.0 && a * c == b * c
    ensures a == b
  {
    assert (a - b) * c == 0.0;
  }

  lemma ReducedExact(p: Position, x: Execution, leverage: Leverage, mmRate: Rate)
    requires leverage >= 1.0 && Exact(p, leverage, mmRate) && Opposed(p.size, x.change) && !Opposed(p.size, p.size + x.change)
    ensures Exact(Reduced(p, x), leverage, mmRate)
  {
    MarginSign(p, leverage, mmRate);
    ProportionLeft(p.size, x.change, p.margin);
    var q := Reduced(p, x);
    if q.size != 0.0 {
      var s, t := Abs(p.size), Abs(q.size);
      assert q.margin * s == p.margin * t;
      assert q.margin * leverage * s == (q.margin * s) * leverage == (p.margin * t) * leverage == (p.margin * leverage) * t == (s * p.entry) * t == (t * p.entry) * s;
      CancelFactor(q.margin * leverage, t * p.entry, s);
    }
  }

  lemma MarginSign(p: Position, leverage: Leverage, mmRate: Rate)
    requires leverage >= 1.0 && Exact(p, leverage, mmRate) && p.size != 0.0
    ensures p.margin > 0.0
  {
    SignedProduct(Abs(p.size), p.entry);
    if p.margin <= 0.0 { NotPositive(leverage, p.margin); }
  }

  /** Whatever an execution does to a position, opening, adding, reducing, closing or flipping it,
      margin times leverage stays size times entry price. */
  lemma RecordedExact(p: Position, x: Execution, leverage: Leverage, mmRate: Rate)
    requires leverage >= 1.0 && Exact(p, leverage, mmRate) && Routed(x, leverage, mmRate)
    ensures Exact(Recorded(p, x), leverage, mmRate)
  {
    hide Exact, Routed, Opened, Flipped, Reduced, Added;
    if p.size == 0.0 {
      OpenedExact(p, x, leverage, mmRate);
    } else if Opposed(p.size, x.change) {
      if Opposed(p.size, p.size + x.change) {
        FlippedExact(p, x, leverage, mmRate);
      } else {
        ReducedExact(p, x, leverage, mmRate);
      }
    } else if Aligned(p.size, x.change) {
      AddedExact(p, x, leverage, mmRate);
    }
  }

  // ---------------------------------------------------------------------------
  // Bankruptcy and liquidation
  // ---------------------------------------------------------------------------

  /** The collateral of an exact position is its size times the distance from the bankruptcy price. */
  lemma CollateralIsDistance(p: Position, leverage: Leverage, mmRate: Rate, mark: real)
    requires leverage >= 1.0 && Exact(p, leverage, mmRate) && p.size != 0.0
    ensures Collateral(p, mark) == p.size * (mark - BankruptcyPrice(p))
  {
    var inv := 1.0 / leverage;
    Quotient(1.0, leverage);
    assert p.margin * (leverage * inv) == (p.margin * leverage) * inv;
    assert p.margin * 1.0 == p.margin;
    assert p.margin == Abs(p.size) * p.entry * inv;
    if p.size > 0.0 {
      assert BankruptcyPrice(p) == p.entry * (1.0 - inv);
      assert p.size * (mark - p.entry * (1.0 - inv)) == p.size * (mark - p.entry) + p.size * p.entry * inv;
    } else {
      assert BankruptcyPrice(p) == p.entry * (1.0 + inv);
      assert p.size * (mark - p.entry * (1.0 + inv)) == p.size * (mark - p.entry) + (-p.size) * p.entry * inv;
    }
  }

  /** Nothing is left exactly at the bankruptcy price. */
  lemma BankruptAtZero(p: Position, leverage: Leverage, mmRate: Rate, mark: real)
    requires leverage >= 1.0 && Exact(p, leverage, mmRate) && p.size != 0.0
    ensures Collateral(p, mark) == 0.0 <==> mark == BankruptcyPrice(p)
  {
    CollateralIsDistance(p, leverage, mmRate, mark);
    SignedProduct(mark - BankruptcyPrice(p), Abs(p.size));
    var d := mark - BankruptcyPrice(p);
    assert d * Abs(p.size) == if p.size > 0.0 then p.size * d else -(p.size * d);
  }

  lemma RatioAtLeastOne(m: real, c: real)
    requires c > 0.0
    ensures m / c >= 1.0 <==> m >= c
  {
    Quotient(m, c);
    var r := m / c;
    assert (r - 1.0) * c == m - c;
    SignedProduct(r - 1.0, c);
  }

  /** Comparing a price with a quotient. */
  lemma CompareQuotient(mark: real, b: real, d: real)
    requires d > 0.0
    ensures mark * d <= b <==> mark <= b / d
    ensures mark * d >= b <==> mark >= b / d
  {
    Quotient(b, d);
    var q := b / d;
    assert (mark - q) * d == mark * d - b;
    SignedProduct(mark - q, d);
  }

  lemma Inverse(a: real, b: real)
    requires a >= 1.0 && b * a == 1.0
    ensures 0.0 < b <= 1.0
  {
    assert (b - 1.0) * a == b * a - a;
    SignedProduct(b, a);
    SignedProduct(b - 1.0, a);
  }

  lemma BankruptcyPositive(p: Position, leverage: Leverage, mmRate: Rate)
    requires leverage >= 1.0 && Exact(p, leverage, mmRate) && p.size != 0.0
    ensures BankruptcyPrice(p) >= 0.0
  {
    var inv := 1.0 / leverage;
    Quotient(1.0, leverage);
    Inverse(leverage, inv);
    NonNegativeTimes(1.0 - inv, p.entry);
    NonNegativeTimes(1.0 + inv, p.entry);
  }

  /** Without collateral the mark is past the bankruptcy price, hence past the liquidation price. */
  lemma PastBankruptcy(mark: real, b: real, rate: real)
    requires b >= 0.0 && 0.0 <= rate < 1.0
    ensures mark <= b ==> mark * (1.0 - rate) <= b
    ensures mark >= b ==> mark * (1.0 + rate) >= b
  {
    if mark <= b {
      if mark >= 0.0 { NonNegativeTimes(mark, rate); } else { NonNegativeTimes(1.0 - rate, mark); }
      assert mark * (1.0 - rate) == mark - mark * rate;
    }
    if mark >= b {
      NonNegativeTimes(mark, rate);
      assert mark * (1.0 + rate) == mark + mark * rate;
    }
  }

  /** The evaluation of a long position in terms of price alone. */
  lemma LongThreshold(s: real, mark: real, b: real, rate: real)
    requires s > 0.0
    ensures s * mark * rate >= s * (mark - b) <==> mark * (1.0 - rate) <= b
    ensures s * (mark - b) <= 0.0 <==> mark <= b
  {
    var g := b - mark * (1.0 - rate);
    assert g * s == s * mark * rate - s * (mark - b);
    SignedProduct(g, s);
    SignedProduct(mark - b, s);
    assert s * (mark - b) == (mark - b) * s;
  }

  lemma ShortThreshold(s: real, mark: real, b: real, rate: real)
    requires s < 0.0
    ensures (-s) * mark * rate >= s * (mark - b) <==> mark * (1.0 + rate) >= b
    ensures s * (mark - b) <= 0.0 <==> mark >= b
  {
    var g := mark * (1.0 + rate) - b;
    assert g * (-s) == (-s) * mark * rate - s * (mark - b);
    SignedProduct(g, -s);
    SignedProduct(b - mark, -s);
    assert s * (mark - b) == (b - mark) * (-s);
  }

  /** The evaluation asks whether the maintenance margin has reached the collateral. */
  lemma LiquidatesWhen(p: Position, mark: real)
    requires p.size != 0.0
    ensures Liquidates(p, mark) <==> Collateral(p, mark) <= 0.0 || Maintenance(p, mark) >= Collateral(p, mark)
  {
    hide Collateral, Maintenance;
    if Collateral(p, mark) > 0.0 { RatioAtLeastOne(Maintenance(p, mark), Collateral(p, mark)); }
  }

  lemma LongExact(s: real, mark: real, b: real, rate: Rate)
    requires s > 0.0 && b >= 0.0
    ensures s * (mark - b) <= 0.0 || s * mark * rate >= s * (mark - b) <==> mark <= b / (1.0 - rate)
  {
    LongThreshold(s, mark, b, rate);
    PastBankruptcy(mark, b, rate);
    CompareQuotient(mark, b, 1.0 - rate);
  }

  lemma ShortExact(s: real, mark: real, b: real, rate: Rate)
    requires s < 0.0 && b >= 0.0
    ensures s * (mark - b) <= 0.0 || (-s) * mark * rate >= s * (mark - b) <==> mark >= b / (1.0 + rate)
  {
    ShortThreshold(s, mark, b, rate);
    PastBankruptcy(mark, b, rate);
    CompareQuotient(mark, b, 1.0 + rate);
  }

  lemma LiquidationShape(p: Position)
    ensures p.size > 0.0 ==> LiquidationPrice(p) == BankruptcyPrice(p) / (1.0 - p.mmRate)
    ensures p.size < 0.0 ==> LiquidationPrice(p) == BankruptcyPrice(p) / (1.0 + p.mmRate)
  {
    hide LongBankrupt, ShortBankrupt;
  }

  lemma MaintenanceShape(p: Position, mark: real)
    ensures p.size > 0.0 ==> Maintenance(p, mark) == p.size * mark * p.mmRate
    ensures p.size < 0.0 ==> Maintenance(p, mark) == (-p.size) * mark * p.mmRate
  {}

  /** Liquidation is exact: a long position is taken over exactly when the mark price is at or below
      its liquidation price, a short position exactly when it is at or above. */
  lemma LiquidationIsExact(p: Position, leverage: Leverage, mmRate: Rate, mark: real)
    requires leverage >= 1.0 && Exact(p, leverage, mmRate)
    ensures p.size > 0.0 ==> (Liquidates(p, mark) <==> mark <= LiquidationPrice(p))
    ensures p.size < 0.0 ==> (Liquidates(p, mark) <==> mark >= LiquidationPrice(p))
  {
    hide *;
    var b, s := BankruptcyPrice(p), p.size;
    if s != 0.0 {
      LiquidatesWhen(p, mark);
      CollateralIsDistance(p, leverage, mmRate, mark);
      BankruptcyPositive(p, leverage, mmRate);
      LiquidationShape(p);
      MaintenanceShape(p, mark);
      if s > 0.0 {
        LongExact(s, mark, b, p.mmRate);
      } else {
        ShortExact(s, mark, b, p.mmRate);
      }
    }
  }

  // ---------------------------------------------------------------------------
  // Runs
  // ---------------------------------------------------------------------------

  function RecordAll(p: Position, xs: seq<Execution>): Position
    decreases |xs|
  {
    if xs == [] then p else RecordAll(Recorded(p, xs[0]), xs[1..])
  }

  lemma {:induction false} RunsExact(p: Position, xs: seq<Execution>, leverage: Leverage, mmRate: Rate)
    requires leverage >= 1.0 && Exact(p, leverage, mmRate)
    requires forall i :: 0 <= i < |xs| ==> Routed(xs[i], leverage, mmRate)
    ensures Exact(RecordAll(p, xs), leverage, mmRate)
    decreases |xs|
  {
    hide Recorded, Exact;
    if xs != [] {
      RecordedExact(p, xs[0], leverage, mmRate);
      RunsExact(Recorded(p, xs[0]), xs[1..], leverage, mmRate);
    }
  }

  lemma FirstExact(x: Execution, leverage: Leverage, mmRate: Rate)
    requires leverage >= 1.0 && Routed(x, leverage, mmRate)
    ensures Exact(Recorded(Empty(x), x), leverage, mmRate)
  {
    OpenedExact(Empty(x), x, leverage, mmRate);
  }

  lemma ExactMeans(p: Position, leverage: Leverage, mmRate: Rate)
    requires Exact(p, leverage, mmRate)
    ensures p.margin * leverage == Abs(p.size) * p.entry
  {}

  /** Any position built by executions at a fixed leverage is liquidated exactly at its
      liquidation price and has lost all its collateral exactly at its bankruptcy price. */
  lemma EveryPositionIsExact(x: Execution, xs: seq<Execution>, leverage: Leverage, mmRate: Rate, mark: real)
    requires leverage >= 1.0
    requires Routed(x, leverage, mmRate) && forall i :: 0 <= i < |xs| ==> Routed(xs[i], leverage, mmRate)
    ensures
      var p := RecordAll(Recorded(Empty(x), x), xs);
      p.margin * leverage == Abs(p.size) * p.entry &&
      (p.size > 0.0 ==> (Liquidates(p, mark) <==> mark <= LiquidationPrice(p))) &&
      (p.size < 0.0 ==> (Liquidates(p, mark) <==> mark >= LiquidationPrice(p))) &&
      (p.size != 0.0 ==> (Collateral(p, mark) == 0.0 <==> mark == BankruptcyPrice(p)))
  {
    hide Recorded, Exact, Liquidates, LiquidationPrice, Collateral, BankruptcyPrice;
    FirstExact(x, leverage, mmRate);
    RunsExact(Recorded(Empty(x), x), xs, leverage, mmRate);
    var p := RecordAll(Recorded(Empty(x), x), xs);
    ExactMeans(p, leverage, mmRate);
    LiquidationIsExact(p, leverage, mmRate, mark);
    if p.size != 0.0 { BankruptAtZero(p, leverage, mmRate, mark); }
  }

  /** What executions paid out: minus the sum of change times price. */
  function PaidOut(xs: seq<Execution>): real {
    if xs == [] then 0.0 else PaidOut(xs[1..]) - xs[0].change * xs[0].price
  }

  /** What the trades earned at a mark price. */
  function Earned(xs: seq<Execution>, mark: real): real {
    if xs == [] then 0.0 else xs[0].change * (mark - xs[0].price) + Earned(xs[1..], mark)
  }

  function SizeSum(xs: seq<Execution>): real {
    if xs == [] then 0.0 else xs[0].change + SizeSum(xs[1..])
  }

  function Cash(p: Position): real { p.realized - p.size * p.entry }

  lemma CashAdded(p: Position, x: Execution)
    requires Aligned(p.size, x.change)
    ensures Cash(Added(p, x)) == Cash(p) - x.change * x.price
  {
    Quotient(p.size * p.entry + x.change * x.price, p.size + x.change);
    var q := Added(p, x);
    assert q.size * q.entry == p.size * p.entry + x.change * x.price;
  }

  lemma CashFlipped(p: Position, x: Execution)
    ensures Cash(Flipped(p, x)) == Cash(p) - x.change * x.price
  {
    var s, c, e, price := p.size, x.change, p.entry, x.price;
    assert s * (price - e) - (s + c) * price == -(s * e) - c * price;
  }

  lemma CashReduced(p: Position, x: Execution)
    requires p.size != 0.0
    ensures Cash(Reduced(p, x)) == Cash(p) - x.change * x.price
  {
    var s, c, e, price := p.size, x.change, p.entry, x.price;
    var q := Reduced(p, x);
    assert q.realized == p.realized - c * (price - e);
    assert q.size * q.entry == (s + c) * e;
    assert -(c * (price - e)) - (s + c) * e == -(s * e) - c * price;
  }

  /** One execution changes the cash position by what was paid, whatever branch it takes. */
  lemma CashStep(p: Position, x: Execution)
    ensures Recorded(p, x).size == p.size + x.change
    ensures Cash(Recorded(p, x)) == Cash(p) - x.change * x.price
  {
    SizeStep(p, x);
    hide Cash, Opened, Added, Flipped, Reduced;
    CashOpened(p, x);
    CashNothing(p, x);
    if p.size != 0.0 && Opposed(p.size, x.change) {
      CashReduced(p, x);
      CashFlipped(p, x);
    } else if Aligned(p.size, x.change) {
      CashAdded(p, x);
    }
  }

  lemma SizeStep(p: Position, x: Execution)
    ensures Recorded(p, x).size == p.size + x.change
  {}

  lemma CashOpened(p: Position, x: Execution)
    ensures p.size == 0.0 ==> Cash(Opened(p, x)) == Cash(p) - x.change * x.price
  {}

  lemma CashNothing(p: Position, x: Execution)
    ensures x.change == 0.0 ==> Cash(p) == Cash(p) - x.change * x.price
  {}

  lemma {:induction false} CashRun(p: Position, xs: seq<Execution>)
    ensures Cash(RecordAll(p, xs)) == Cash(p) + PaidOut(xs) && RecordAll(p, xs).size == p.size + SizeSum(xs)
    decreases |xs|
  {
    hide Recorded, Cash;
    if xs != [] {
      CashStep(p, xs[0]);
      CashRun(Recorded(p, xs[0]), xs[1..]);
    }
  }

  lemma {:induction false} EarnedSum(xs: seq<Execution>, mark: real)
    ensures Earned(xs, mark) == SizeSum(xs) * mark + PaidOut(xs)
    decreases |xs|
  {
    if xs != [] {
      EarnedSum(xs[1..], mark);
      assert xs[0].change * (mark - xs[0].price) == xs[0].change * mark - xs[0].change * xs[0].price;
    }
  }

  /** Profit and loss is cash flow: over any run of executions, with any leverages and margins,
      realized plus unrealized profit at any mark is what the trades earned. */
  lemma ProfitIsCashFlow(p: Position, xs: seq<Execution>, mark: real)
    requires p.size == 0.0 && p.realized == 0.0
    ensures
      var q := RecordAll(p, xs);
      q.realized - q.size * q.entry == PaidOut(xs) && q.size == SizeSum(xs) &&
      q.realized + Unrealized(q, mark) == Earned(xs, mark)
  {
    CashRun(p, xs);
    EarnedSum(xs, mark);
    var q := RecordAll(p, xs);
    assert q.size * (mark - q.entry) == q.size * mark - q.size * q.entry;
  }

  // ---------------------------------------------------------------------------
  // The engine
  // ---------------------------------------------------------------------------

  class FuturesPosition {
    var size: real
    var entryPrice: real
    var margin: real
    var leverage: Leverage
    var mmRate: Rate
    var realizedPnL: real
    var unrealizedPnL: real

    constructor (x: Execution)
      ensures View() == Empty(x)
    {
      size, entryPrice, realizedPnL, unrealizedPnL := 0.0, 0.0, 0.0, 0.0;
      margin, leverage, mmRate := x.margin, x.leverage, x.mmRate;
    }

    function View(): Position
      reads this
    {
      Position(size, entryPrice, margin, leverage, mmRate, realizedPnL)
    }

    method Record(x: Execution)
      modifies this
      ensures View() == Recorded(old(View()), x)
    {
      if size == 0.0 {
        size, entryPrice, margin, leverage, mmRate := x.change, x.price, x.margin, x.leverage, x.mmRate;
      } else {
        var newSize := size + x.change;
        if Opposed(size, x.change) {
          if Opposed(size, newSize) {
            Flip(x);
            return;
          }
          Reduce(x);
        } else if Aligned(size, x.change) {
          entryPrice := (size * entryPrice + x.change * x.price) / newSize;
          margin := margin + x.margin;
          size := newSize;
        }
      }
    }

    method Flip(x: Execution)
      modifies this
      ensures View() == Flipped(old(View()), x)
    {
      realizedPnL := realizedPnL + size * (x.price - entryPrice);
      size := size + x.change;
      entryPrice := x.price;
      margin := Abs(size) * x.price / x.leverage;
      leverage, mmRate := x.leverage, x.mmRate;
    }

    method Reduce(x: Execution)
      requires size != 0.0
      modifies this
      ensures View() == Reduced(old(View()), x)
    {
      realizedPnL := realizedPnL - x.change * (x.price - entryPrice);
      margin := margin - Abs(x.change / size * margin);
      if margin < 0.0 {
        margin := 0.0;
      }
      size := size + x.change;
      if size == 0.0 {
        entryPrice, margin := 0.0, 0.0;
      }
    }

    /** The unrealized profit is also kept in the position. */
    method CalculateUnrealizedPnL(mark: real) returns (pnl: real)
      modifies this`unrealizedPnL
      ensures pnl == unrealizedPnL == Unrealized(View(), mark)
    {
      unrealizedPnL := size * (mark - entryPrice);
      pnl := unrealizedPnL;
    }

    method CalculateMarginRatio(mark: real) returns (ratio: real)
      modifies this`unrealizedPnL
      ensures ratio == MarginRatio(View(), mark)
    {
      hide Maintenance, Unrealized;
      var pnl := CalculateUnrealizedPnL(mark);
      var collateral := margin + pnl;
      if collateral <= 0.0 { return 999.0; }
      ratio := Maintenance(View(), mark) / collateral;
    }

    method Reset()
      modifies this
      ensures View() == Cleared(old(View())) && size == margin == entryPrice == unrealizedPnL == 0.0
    {
      size, margin, entryPrice, unrealizedPnL := 0.0, 0.0, 0.0, 0.0;
    }
  }

  /** No size, no margin and no entry price. */
  predicate Flat(p: Position) { p.size == 0.0 && p.margin == 0.0 && p.entry == 0.0 }

  function Cleared(p: Position): Position { p.(size := 0.0, margin := 0.0, entry := 0.0) }

  datatype Key = Key(user: string, symbol: string)

  /** The limit order that takes a position over: at the bankruptcy price, for the whole size. */
  datatype Takeover = Takeover(price: real, size: real)

  class PositionEngine {
    var positions: map<Key, FuturesPosition>

    constructor ()
      ensures Valid() && Snapshot() == map[]
    {
      positions := map[];
    }

    /** No position is tracked under two keys. */
    ghost predicate Valid()
      reads this
    {
      forall k, l :: k in positions && l in positions && positions[k] == positions[l] ==> k == l
    }

    ghost function Snapshot(): (s: map<Key, Position>)
      reads this, positions.Values
      ensures s.Keys == positions.Keys
    {
      map k | k in positions :: positions[k].View()
    }

    method RecordFuturesExecution(key: Key, x: Execution)
      requires Valid()
      modifies this, positions.Values
      ensures Valid()
      ensures
        var was := if key in old(Snapshot()) then old(Snapshot())[key] else Empty(x);
        Snapshot() == old(Snapshot())[key := Recorded(was, x)]
    {
      hide Recorded;
      if key !in positions {
        var p := new FuturesPosition(x);
        positions := positions[key := p];
      }
      positions[key].Record(x);
    }

    method ResetPosition(key: Key)
      requires Valid()
      modifies positions.Values
      ensures Valid()
      ensures Snapshot() == if key in old(Snapshot()) then old(Snapshot())[key := Cleared(old(Snapshot())[key])] else old(Snapshot())
      ensures key in Snapshot() ==> Flat(Snapshot()[key]) && Snapshot()[key].realized == old(Snapshot())[key].realized
    {
      if key in positions {
        positions[key].Reset();
      }
    }

    /** Which tracked positions of a symbol are due at a mark price. */
    ghost predicate Due(s: map<Key, Position>, k: Key, symbol: string, mark: real) {
      k in s && k.symbol == symbol && Liquidates(s[k], mark)
    }

    /** Evaluate every position of a symbol, in any order: those that are due are closed and handed
        to the liquidation engine at their bankruptcy price, with a request to cancel the open orders of
        their users; the others do not change. */
    method EvaluatePositionsRisk(symbol: string, mark: real) returns (cancels: set<Key>, orders: map<Key, Takeover>)
      requires Valid()
      modifies positions.Values
      ensures Valid() && positions == old(positions)
      ensures cancels == orders.Keys && forall k :: k in orders <==> Due(old(Snapshot()), k, symbol, mark)
      ensures forall k :: k in orders ==> k in old(Snapshot()) && orders[k] == Takeover(BankruptcyPrice(old(Snapshot())[k]), old(Snapshot())[k].size)
      ensures forall k :: k in Snapshot() ==>
        Snapshot()[k] == if k in orders then Cleared(old(Snapshot())[k]) else old(Snapshot())[k]
      ensures forall k :: k in orders ==> k in Snapshot() && Flat(Snapshot()[k])
      ensures forall k :: k in orders ==> Snapshot()[k].realized == old(Snapshot())[k].realized
      ensures forall k :: k in orders ==> orders[k].size + Snapshot()[k].size == old(Snapshot())[k].size
      ensures forall k :: !Due(Snapshot(), k, symbol, mark)
    {
      hide BankruptcyPrice, MarginRatio;
      cancels, orders := {}, map[];
      var todo := positions.Keys;
      while todo != {}
        invariant todo <= positions.Keys && positions == old(positions) && Valid() && cancels == orders.Keys
        invariant forall k :: k in orders <==> k !in todo && Due(old(Snapshot()), k, symbol, mark)
        invariant forall k :: k in orders ==> orders[k] == Takeover(BankruptcyPrice(old(Snapshot())[k]), old(Snapshot())[k].size)
        invariant forall k :: k in positions ==>
          positions[k].View() == if k in orders then Cleared(old(Snapshot())[k]) else old(Snapshot())[k]
      {
        var k :| k in todo;
        todo := todo - {k};
        var p := positions[k];
        if k.symbol == symbol && p.size != 0.0 {
          var ratio := p.CalculateMarginRatio(mark);
          if ratio >= 1.0 {
            cancels := cancels + {k};
            orders := orders[k := Takeover(BankruptcyPrice(p.View()), p.size)];
            p.Reset();
          }
        }
      }
    }
  }

  /** Evaluating twice at the same mark price: the second time nothing is handed over. */
  method EvaluateTwice(engine: PositionEngine, symbol: string, mark: real) returns (again: map<Key, Takeover>)
    requires engine.Valid()
    modifies engine.positions.Values
    ensures engine.Valid() && again == map[]
  {
    var cancels, orders := engine.EvaluatePositionsRisk(symbol, mark);
    cancels, again := engine.EvaluatePositionsRisk(symbol, mark);
  }

  /** A position that is handed over shows no profit at any mark price, keeps what it has realized, and is
      not due again. */
  lemma HandedOver(p: Position, mark: real)
    ensures
      var q := Cleared(p);
      Flat(q) && q.realized == p.realized && Unrealized(q, mark) == 0.0 && Collateral(q, mark) == 0.0 && !Liquidates(q, mark)
  {}

  /** The margin ratio is the maintenance margin, the value at the mark price at the maintenance rate, over what
      the position is worth, and 999 when that is nothing or less. */
  lemma RatioIs(p: Position, mark: real)
    ensures
      var worth := p.margin + p.size * (mark - p.entry);
      var needed := (if p.size < 0.0 then -p.size else p.size) * mark * p.mmRate;
      if worth <= 0.0 then MarginRatio(p, mark) == 999.0 else MarginRatio(p, mark) * worth == needed
  {
    var worth := Collateral(p, mark);
    if worth > 0.0 { Quotient(Maintenance(p, mark), worth); }
  }

  /** Bankruptcy lies one over the leverage away from the entry price, below it for a long and above it for a
      short; a position of no size has neither a bankruptcy nor a liquidation price. */
  lemma PricesAre(p: Position)
    ensures p.size > 0.0 ==> (p.entry - BankruptcyPrice(p)) * p.leverage == p.entry
    ensures p.size < 0.0 ==> (BankruptcyPrice(p) - p.entry) * p.leverage == p.entry
    ensures p.size == 0.0 ==> BankruptcyPrice(p) == 0.0 && LiquidationPrice(p) == 0.0
  {
    var lev: real := p.leverage;
    Quotient(1.0, lev);
    assert p.entry * (1.0 / lev) * lev == p.entry * (1.0 / lev * lev);
    assert p.entry - LongBankrupt(p) == p.entry * (1.0 / lev);
    assert ShortBankrupt(p) - p.entry == p.entry * (1.0 / lev);
  }

  /** The first execution opens a position at its own price and margin, with nothing realized. */
  lemma FirstExecution(x: Execution)
    requires x.change != 0.0
    ensures Recorded(Empty(x), x) == Position(x.change, x.price, x.margin, x.leverage, x.mmRate, 0.0)
  {}
}
