/** Settlement of executed trades: one database transaction moves the balances, writes the ledger and
    clears the job from the durable queue.  Statements and commits may fail, jobs are retried, and
    several workers may process the queue at once. */
module Settlement {

  datatype Account = Account(user: string, asset: string)

  /** An executed trade waiting to be settled; `retries` counts the failures so far. */
  datatype Job = Job(
    trade: string, buyer: string, seller: string, price: real, qty: real, base: string, quote: string,
    buyerFeeAsset: string, sellerFeeAsset: string, buyerFee: real, sellerFee: real, retries: nat)
  {
    function Value(): real { price * qty }

    function BuyerPaysIn(): string { if buyerFeeAsset == "" then quote else buyerFeeAsset }

    function SellerPaysIn(): string { if sellerFeeAsset == "" then quote else sellerFeeAsset }
  }

  const PLATFORM := "platform_fees"

  const MAX_RETRIES := 3

  datatype Leg = BuyerQuote | BuyerFee | BuyerBase | SellerBase | SellerQuote | SellerFee | PlatformBuyer | PlatformSeller

  /** One movement and its ledger entry. */
  datatype Posting = Posting(leg: Leg, account: Account, credit: bool, amount: real)
  {
    function Signed(): real { if credit then amount else -amount }
  }

  function Payment(j: Job): Posting {
    Posting(BuyerQuote, Account(j.buyer, j.quote), false, if j.BuyerPaysIn() == j.quote then j.Value() + j.buyerFee else j.Value())
  }

  function Proceeds(j: Job): Posting {
    Posting(SellerQuote, Account(j.seller, j.quote), true, if j.SellerPaysIn() == j.quote then j.Value() - j.sellerFee else j.Value())
  }

  function BuyerFeeLeg(j: Job): seq<Posting> {
    if j.BuyerPaysIn() == j.quote then [] else [Posting(BuyerFee, Account(j.buyer, j.BuyerPaysIn()), false, j.buyerFee)]
  }

  function SellerFeeLeg(j: Job): seq<Posting> {
    if j.SellerPaysIn() == j.quote then [] else [Posting(SellerFee, Account(j.seller, j.SellerPaysIn()), false, j.sellerFee)]
  }

  function Delivery(j: Job): seq<Posting> {
    [Posting(BuyerBase, Account(j.buyer, j.base), true, j.qty), Posting(SellerBase, Account(j.seller, j.base), false, j.qty)]
  }

  function Revenue(j: Job): seq<Posting> {
    [Posting(PlatformBuyer, Account(PLATFORM, j.BuyerPaysIn()), true, j.buyerFee),
     Posting(PlatformSeller, Account(PLATFORM, j.SellerPaysIn()), true, j.sellerFee)]
  }

  /** The movements of a settlement, in the order in which they are made. */
  function Postings(j: Job): seq<Posting> {
    [Payment(j)] + BuyerFeeLeg(j) + Delivery(j) + [Proceeds(j)] + SellerFeeLeg(j) + Revenue(j)
  }

  // ---------------------------------------------------------------------------
  // Balances
  // ---------------------------------------------------------------------------

  type Balances = map<Account, real>

  function Total(b: Balances, a: Account): real { if a in b then b[a] else 0.0 }

  /** A credit inserts the row if it is missing; a debit of a missing row changes no row. */
  function Move(b: Balances, p: Posting): Balances {
    if p.credit then b[p.account := Total(b, p.account) + p.amount]
    else if p.account in b then b[p.account := b[p.account] - p.amount]
    else b
  }

  function MoveAll(b: Balances, ps: seq<Posting>): Balances
    decreases |ps|
  {
    if ps == [] then b else MoveAll(Move(b, ps[0]), ps[1..])
  }

  /** Credits minus debits of an account. */
  function Net(ps: seq<Posting>, a: Account): real {
    if ps == [] then 0.0 else (if ps[0].account == a then ps[0].Signed() else 0.0) + Net(ps[1..], a)
  }

  /** Credits minus debits of an asset, over all accounts. */
  function AssetNet(ps: seq<Posting>, asset: string): real {
    if ps == [] then 0.0 else (if ps[0].account.asset == asset then ps[0].Signed() else 0.0) + AssetNet(ps[1..], asset)
  }

  /** Every debit of something finds its row when it is made. */
  predicate Found(b: Balances, ps: seq<Posting>)
    decreases |ps|
  {
    ps == [] ||
    ((!ps[0].credit && ps[0].amount != 0.0 ==> ps[0].account in b) && Found(Move(b, ps[0]), ps[1..]))
  }

  /** What an account was spared because its row was missing. */
  function Spared(b: Balances, ps: seq<Posting>, a: Account): real
    decreases |ps|
  {
    if ps == [] then 0.0
    else (if !ps[0].credit && ps[0].account == a && a !in b then ps[0].amount else 0.0) + Spared(Move(b, ps[0]), ps[1..], a)
  }

  lemma {:induction false} MovedBy(b: Balances, ps: seq<Posting>, a: Account)
    ensures Total(MoveAll(b, ps), a) == Total(b, a) + Net(ps, a) + Spared(b, ps, a)
    decreases |ps|
  {
    if ps != [] { MovedBy(Move(b, ps[0]), ps[1..], a); }
  }

  predicate DebitsOk(ps: seq<Posting>) {
    forall i :: 0 <= i < |ps| && !ps[i].credit ==> ps[i].amount >= 0.0
  }

  lemma {:induction false} SparedNothing(b: Balances, ps: seq<Posting>)
    requires DebitsOk(ps)
    ensures forall a :: Spared(b, ps, a) >= 0.0
    ensures Found(b, ps) ==> forall a :: Spared(b, ps, a) == 0.0
    decreases |ps|
  {
    if ps != [] { SparedNothing(Move(b, ps[0]), ps[1..]); }
  }

  lemma {:induction false} NotFoundSpares(b: Balances, ps: seq<Posting>) returns (a: Account)
    requires DebitsOk(ps) && !Found(b, ps)
    ensures Spared(b, ps, a) > 0.0
    decreases |ps|
  {
    SparedNothing(Move(b, ps[0]), ps[1..]);
    if !ps[0].credit && ps[0].amount != 0.0 && ps[0].account !in b {
      a := ps[0].account;
    } else {
      a := NotFoundSpares(Move(b, ps[0]), ps[1..]);
    }
  }

  /** The entries explain the totals exactly when every debit finds its row. */
  lemma ExplainedIff(b: Balances, ps: seq<Posting>)
    requires DebitsOk(ps)
    ensures Found(b, ps) <==> forall a :: Total(MoveAll(b, ps), a) == Total(b, a) + Net(ps, a)
  {
    forall a ensures Total(MoveAll(b, ps), a) == Total(b, a) + Net(ps, a) + Spared(b, ps, a) { MovedBy(b, ps, a); }
    SparedNothing(b, ps);
    if !Found(b, ps) {
      var a := NotFoundSpares(b, ps);
      assert Total(MoveAll(b, ps), a) != Total(b, a) + Net(ps, a);
    }
  }

  // ---------------------------------------------------------------------------
  // What each party pays and gets
  // ---------------------------------------------------------------------------

  /** What a trade brings an account, from its price, its quantity and its fees; a fee without an asset of
      its own is paid in the quote asset. */
  function TradeNet(j: Job, a: Account): real {
    var buyerPays := if j.buyerFeeAsset == "" then j.quote else j.buyerFeeAsset;
    var sellerPays := if j.sellerFeeAsset == "" then j.quote else j.sellerFeeAsset;
    If(a == Account(j.buyer, j.base), j.qty) - If(a == Account(j.buyer, j.quote), j.price * j.qty) -
    If(a == Account(j.buyer, buyerPays), j.buyerFee) +
    If(a == Account(j.seller, j.quote), j.price * j.qty) - If(a == Account(j.seller, j.base), j.qty) -
    If(a == Account(j.seller, sellerPays), j.sellerFee) +
    If(a == Account(PLATFORM, buyerPays), j.buyerFee) + If(a == Account(PLATFORM, sellerPays), j.sellerFee)
  }

  function If(c: bool, v: real): real { if c then v else 0.0 }

  lemma NetOne(p: Posting, a: Account)
    ensures Net([p], a) == If(p.account == a, if p.credit then p.amount else -p.amount)
  {
    assert [p][1..] == [];
    Nothing(a);
  }

  lemma NetTwo(p: Posting, q: Posting, a: Account)
    ensures Net([p, q], a) == Net([p], a) + Net([q], a)
  {
    assert [p] + [q] == [p, q];
    NetConcat([p], [q], a);
  }

  /** The movements of a settlement bring every account what the trade does, whichever parties and assets
      coincide. */
  lemma NetIsTrade(j: Job, a: Account)
    ensures Net(Postings(j), a) == TradeNet(j, a)
  {
    hide Net;
    var x := [Payment(j)] + BuyerFeeLeg(j);
    var y := x + Delivery(j);
    var z := y + [Proceeds(j)];
    var w := z + SellerFeeLeg(j);
    NetConcat([Payment(j)], BuyerFeeLeg(j), a);
    NetConcat(x, Delivery(j), a);
    NetConcat(y, [Proceeds(j)], a);
    NetConcat(z, SellerFeeLeg(j), a);
    NetConcat(w, Revenue(j), a);
    NetOne(Payment(j), a);
    NetOne(Proceeds(j), a);
    NetTwo(Delivery(j)[0], Delivery(j)[1], a);
    NetOne(Delivery(j)[0], a);
    NetOne(Delivery(j)[1], a);
    NetTwo(Revenue(j)[0], Revenue(j)[1], a);
    NetOne(Revenue(j)[0], a);
    NetOne(Revenue(j)[1], a);
    FeeLegs(j, a);
  }

  lemma FeeLegs(j: Job, a: Account)
    ensures Net(BuyerFeeLeg(j), a) == If(j.BuyerPaysIn() != j.quote && a == Account(j.buyer, j.BuyerPaysIn()), -j.buyerFee)
    ensures Net(SellerFeeLeg(j), a) == If(j.SellerPaysIn() != j.quote && a == Account(j.seller, j.SellerPaysIn()), -j.sellerFee)
  {
    Nothing(a);
    if BuyerFeeLeg(j) != [] { NetOne(BuyerFeeLeg(j)[0], a); }
    if SellerFeeLeg(j) != [] { NetOne(SellerFeeLeg(j)[0], a); }
  }

  /** A buyer, a seller and a platform that are three, and two assets. */
  predicate ThreeParties(j: Job) {
    j.buyer != j.seller && j.buyer != PLATFORM && j.seller != PLATFORM && j.base != j.quote
  }

  /** Fees in the quote asset: the buyer pays the value and his fee, the seller gets the value less his,
      the platform gets both. */
  lemma PartiesNet(j: Job)
    requires ThreeParties(j) && (j.buyerFeeAsset == "" || j.buyerFeeAsset == j.quote) && (j.sellerFeeAsset == "" || j.sellerFeeAsset == j.quote)
    ensures Net(Postings(j), Account(j.buyer, j.quote)) == -(j.price * j.qty) - j.buyerFee
    ensures Net(Postings(j), Account(j.buyer, j.base)) == j.qty
    ensures Net(Postings(j), Account(j.seller, j.quote)) == j.price * j.qty - j.sellerFee
    ensures Net(Postings(j), Account(j.seller, j.base)) == -j.qty
    ensures Net(Postings(j), Account(PLATFORM, j.quote)) == j.buyerFee + j.sellerFee
    ensures forall a: Account :: a.user != j.buyer && a.user != j.seller && a.user != PLATFORM ==> Net(Postings(j), a) == 0.0
  {
    hide Postings, Net;
    forall a ensures Net(Postings(j), a) == TradeNet(j, a) { NetIsTrade(j, a); }
  }

  /** Fees in a third asset are paid there, as charged, and leave the value alone. */
  lemma PartiesNetThird(j: Job)
    requires ThreeParties(j) && j.buyerFeeAsset == j.sellerFeeAsset && j.buyerFeeAsset !in {"", j.quote, j.base}
    ensures Net(Postings(j), Account(j.buyer, j.quote)) == -(j.price * j.qty)
    ensures Net(Postings(j), Account(j.buyer, j.base)) == j.qty
    ensures Net(Postings(j), Account(j.buyer, j.buyerFeeAsset)) == -j.buyerFee
    ensures Net(Postings(j), Account(j.seller, j.quote)) == j.price * j.qty
    ensures Net(Postings(j), Account(j.seller, j.base)) == -j.qty
    ensures Net(Postings(j), Account(j.seller, j.sellerFeeAsset)) == -j.sellerFee
    ensures Net(Postings(j), Account(PLATFORM, j.buyerFeeAsset)) == j.buyerFee + j.sellerFee
  {
    hide Postings, Net;
    forall a ensures Net(Postings(j), a) == TradeNet(j, a) { NetIsTrade(j, a); }
  }

  /** The four rows a settlement debits. */
  predicate RowsThere(b: Balances, j: Job) {
    Account(j.buyer, j.quote) in b && Account(j.seller, j.base) in b &&
    Account(j.buyer, if j.buyerFeeAsset == "" then j.quote else j.buyerFeeAsset) in b &&
    Account(j.seller, if j.sellerFeeAsset == "" then j.quote else j.sellerFeeAsset) in b
  }

  lemma {:induction false} RowsFind(b: Balances, ps: seq<Posting>)
    requires forall i :: 0 <= i < |ps| && !ps[i].credit ==> ps[i].account in b
    ensures Found(b, ps)
    decreases |ps|
  {
    if ps != [] { RowsFind(Move(b, ps[0]), ps[1..]); }
  }

  /** When its rows are there, a settlement changes every total by exactly what the trade brings it. */
  lemma SettledTotals(d: Db, j: Job, a: Account)
    requires JobOk(j) && !Clash(d.ledger, j) && RowsThere(d.balances, j)
    ensures
      var (after, ok) := Transact(d, j, false);
      ok && Total(after.balances, a) == Total(d.balances, a) + TradeNet(j, a)
  {
    DebitRows(d.balances, j);
    hide Postings, Clash, MoveAll, Found, TradeNet, EntriesOf;
    PostingsOk(j);
    RowsFind(d.balances, Postings(j));
    ExplainedIff(d.balances, Postings(j));
    NetIsTrade(j, a);
  }

  lemma DebitRows(b: Balances, j: Job)
    requires RowsThere(b, j)
    ensures forall i :: 0 <= i < |Postings(j)| && !Postings(j)[i].credit ==> Postings(j)[i].account in b
  {}

  /** What the completed trades brought an account. */
  function TradesNet(jobs: Trades, done: seq<string>, a: Account): real {
    if done == [] then 0.0
    else TradesNet(jobs, done[..|done| - 1], a) + TradeNet(jobs(done[|done| - 1]), a)
  }

  lemma {:induction false} AllNetIsTrades(jobs: Trades, done: seq<string>, a: Account)
    ensures Net(AllPostings(jobs, done), a) == TradesNet(jobs, done, a)
    decreases |done|
  {
    hide Postings, Net, TradeNet;
    if done == [] {
      Nothing(a);
    } else {
      var last, before := done[|done| - 1], done[..|done| - 1];
      AllNetIsTrades(jobs, before, a);
      NetConcat(AllPostings(jobs, before), Postings(jobs(last)), a);
      NetIsTrade(jobs(last), a);
    }
  }

  /** Whatever workers did and however often: every total is its initial total and what each completed
      trade brings the account, once, exactly when every debit found its row. */
  lemma TotalsAreTrades(jobs: Trades, initial: Balances, d: Db)
    requires TradesOk(jobs) && Booked(jobs, initial, d)
    ensures Found(initial, AllPostings(jobs, d.history)) <==>
      forall a :: Total(d.balances, a) == Total(initial, a) + TradesNet(jobs, d.history, a)
  {
    hide Postings, MoveAll, Found, TradesNet;
    AllDebitsOk(jobs, d.history);
    ExplainedIff(initial, AllPostings(jobs, d.history));
    forall a ensures Net(AllPostings(jobs, d.history), a) == TradesNet(jobs, d.history, a) { AllNetIsTrades(jobs, d.history, a); }
  }

  predicate JobOk(j: Job) { j.price >= 0.0 && j.qty >= 0.0 && j.buyerFee >= 0.0 && j.sellerFee >= 0.0 }

  lemma PostingsOk(j: Job)
    requires JobOk(j)
    ensures DebitsOk(Postings(j))
  {
    assert j.Value() >= 0.0;
  }

  lemma {:induction false} AssetNetConcat(a: seq<Posting>, b: seq<Posting>, asset: string)
    ensures AssetNet(a + b, asset) == AssetNet(a, asset) + AssetNet(b, asset)
    decreases |a|
  {
    if a == [] {
      assert a + b == b;
    } else {
      assert (a + b)[1..] == a[1..] + b;
      AssetNetConcat(a[1..], b, asset);
    }
  }

  lemma AssetNetPush(p: Posting, ps: seq<Posting>, asset: string)
    ensures AssetNet([p] + ps, asset) == (if p.account.asset == asset then p.Signed() else 0.0) + AssetNet(ps, asset)
  {
    assert ([p] + ps)[1..] == ps;
  }

  lemma AssetNetOne(p: Posting, asset: string)
    ensures AssetNet([p], asset) == if p.account.asset == asset then p.Signed() else 0.0
  {
    AssetNetPush(p, [], asset);
    assert [p] + [] == [p];
  }

  lemma AssetNetTwo(p: Posting, q: Posting, asset: string)
    ensures AssetNet([p, q], asset) ==
      (if p.account.asset == asset then p.Signed() else 0.0) + if q.account.asset == asset then q.Signed() else 0.0
  {
    AssetNetPush(p, [q], asset);
    AssetNetOne(q, asset);
    assert [p] + [q] == [p, q];
  }

  /** The buyer's payment and fee against the seller's proceeds and fee and the platform's revenue. */
  lemma PartsBalance(j: Job, asset: string)
    ensures AssetNet(Delivery(j), asset) == 0.0
    ensures AssetNet([Payment(j)], asset) + AssetNet(BuyerFeeLeg(j), asset) + AssetNet([Proceeds(j)], asset) +
      AssetNet(SellerFeeLeg(j), asset) + AssetNet(Revenue(j), asset) == 0.0
  {
    AssetNetTwo(Delivery(j)[0], Delivery(j)[1], asset);
    AssetNetTwo(Revenue(j)[0], Revenue(j)[1], asset);
    AssetNetOne(Payment(j), asset);
    AssetNetOne(Proceeds(j), asset);
    if BuyerFeeLeg(j) != [] { AssetNetOne(BuyerFeeLeg(j)[0], asset); }
    if SellerFeeLeg(j) != [] { AssetNetOne(SellerFeeLeg(j)[0], asset); }
  }

  /** Double entry: the debits and credits of one settlement balance in every asset, whichever assets
      the fees are paid in and whichever accounts coincide. */
  lemma SettlementBalances(j: Job, asset: string)
    ensures AssetNet(Postings(j), asset) == 0.0
  {
    hide AssetNet, Payment, Proceeds, BuyerFeeLeg, SellerFeeLeg, Delivery, Revenue;
    PartsBalance(j, asset);
    var a := [Payment(j)] + BuyerFeeLeg(j);
    var b := a + Delivery(j);
    var c := b + [Proceeds(j)];
    var d := c + SellerFeeLeg(j);
    AssetNetConcat([Payment(j)], BuyerFeeLeg(j), asset);
    AssetNetConcat(a, Delivery(j), asset);
    AssetNetConcat(b, [Proceeds(j)], asset);
    AssetNetConcat(c, SellerFeeLeg(j), asset);
    AssetNetConcat(d, Revenue(j), asset);
  }

  // ---------------------------------------------------------------------------
  // The ledger
  // ---------------------------------------------------------------------------

  datatype Entry = Entry(id: string, tx: string, account: Account, credit: bool, amount: real)

  function LegName(l: Leg): string {
    match l
    case BuyerQuote => "ent_b_q_"
    case BuyerFee => "ent_b_fee_"
    case BuyerBase => "ent_b_b_"
    case SellerBase => "ent_s_b_"
    case SellerQuote => "ent_s_q_"
    case SellerFee => "ent_s_fee_"
    case PlatformBuyer => "ent_p_fee_b_"
    case PlatformSeller => "ent_p_fee_s_"
  }

  function EntryId(l: Leg, trade: string): string { LegName(l) + trade }

  function TxId(trade: string): string { "tx_settle_" + trade }

  function EntryOf(trade: string, p: Posting): Entry {
    Entry(EntryId(p.leg, trade), TxId(trade), p.account, p.credit, p.amount)
  }

  function EntriesOf(trade: string, ps: seq<Posting>): (es: seq<Entry>)
    ensures |es| == |ps|
    ensures forall i :: 0 <= i < |ps| ==> es[i] == EntryOf(trade, ps[i])
  {
    if ps == [] then [] else [EntryOf(trade, ps[0])] + EntriesOf(trade, ps[1..])
  }

  lemma PrefixChars(l: Leg, trade: string)
    ensures |EntryId(l, trade)| > 7 && EntryId(l, trade)[4] == LegName(l)[4] && EntryId(l, trade)[6] == LegName(l)[6]
    ensures LegName(l)[4] == 'p' ==> |EntryId(l, trade)| > 11 && EntryId(l, trade)[10] == LegName(l)[10]
  {}

  /** Two entries have the same identifier only if they are the same leg of the same trade. */
  lemma EntryIdInjective(l: Leg, trade: string, k: Leg, other: string)
    requires EntryId(l, trade) == EntryId(k, other)
    ensures l == k && trade == other
  {
    PrefixChars(l, trade);
    PrefixChars(k, other);
    SameChars(l, k);
    assert EntryId(l, trade)[|LegName(l)|..] == trade && EntryId(k, other)[|LegName(k)|..] == other;
  }

  lemma SameChars(l: Leg, k: Leg)
    requires LegName(l)[4] == LegName(k)[4] && LegName(l)[6] == LegName(k)[6]
    requires LegName(l)[4] == 'p' ==> LegName(l)[10] == LegName(k)[10]
    ensures l == k
  {}

  predicate HasId(ledger: seq<Entry>, id: string) {
    exists i :: 0 <= i < |ledger| && ledger[i].id == id
  }

  predicate UniqueIds(ledger: seq<Entry>) {
    forall i, j :: 0 <= i < j < |ledger| ==> ledger[i].id != ledger[j].id
  }

  /** No leg occurs twice in a settlement. */
  lemma LegsDistinct(j: Job)
    ensures forall i, k :: 0 <= i < k < |Postings(j)| ==> Postings(j)[i].leg != Postings(j)[k].leg
  {}

  // ---------------------------------------------------------------------------
  // The transaction and the job
  // ---------------------------------------------------------------------------

  datatype RowStatus = Pending | Retrying | Failed

  /** A row of the durable queue; its payload is the job as last written. */
  datatype Row = Row(job: Job, status: RowStatus)

  /** `history` lists the completed trades in order of completion. */
  datatype Db = Db(balances: Balances, ledger: seq<Entry>, queue: map<string, Row>, history: seq<string>)

  /** Would an insert of this trade's entries violate the primary key of the ledger? */
  predicate Clash(ledger: seq<Entry>, j: Job) {
    exists k :: 0 <= k < |Postings(j)| && HasId(ledger, EntryId(Postings(j)[k].leg, j.trade))
  }

  function Settled(d: Db, j: Job): Db {
    Db(MoveAll(d.balances, Postings(j)), d.ledger + EntriesOf(j.trade, Postings(j)), d.queue - {j.trade},
       if j.trade in d.history then d.history else d.history + [j.trade])
  }

  /** All or nothing: a failing statement, a duplicate entry or a failing commit leaves no trace. */
  function Transact(d: Db, j: Job, fails: bool): (Db, bool) {
    if fails || Clash(d.ledger, j) then (d, false) else (Settled(d, j), true)
  }

  /** One attempt at a job.  The status update after a failure may be lost, and finds no row when the
      job has been completed meanwhile. */
  function Attempt(d: Db, j: Job, fails: bool, lost: bool): Db {
    var (after, ok) := Transact(d, j, fails);
    if ok || lost || j.trade !in d.queue then after
    else
      after.(queue := d.queue[j.trade := Row(j.(retries := j.retries + 1), if j.retries + 1 <= MAX_RETRIES then Retrying else Failed)])
  }

  // ---------------------------------------------------------------------------
  // Runs with any number of workers
  // ---------------------------------------------------------------------------

  /** What a trade identifier stands for. */
  type Trades = string -> Job

  predicate Copy(jobs: Trades, j: Job) { j.(retries := 0) == jobs(j.trade) }

  ghost predicate TradesOk(jobs: Trades) {
    forall t :: jobs(t).trade == t && jobs(t).retries == 0 && JobOk(jobs(t))
  }

  /** The movements of the completed trades, oldest first. */
  function AllPostings(jobs: Trades, done: seq<string>): seq<Posting> {
    if done == [] then [] else AllPostings(jobs, done[..|done| - 1]) + Postings(jobs(done[|done| - 1]))
  }

  function AllEntries(jobs: Trades, done: seq<string>): seq<Entry> {
    if done == [] then []
    else
      var t := done[|done| - 1];
      AllEntries(jobs, done[..|done| - 1]) + EntriesOf(t, Postings(jobs(t)))
  }

  predicate NoRepeat(done: seq<string>) { forall i, k :: 0 <= i < k < |done| ==> done[i] != done[k] }

  /** Balances and ledger are those of the completed trades, each settled once. */
  predicate Booked(jobs: Trades, initial: Balances, d: Db) {
    NoRepeat(d.history) && d.ledger == AllEntries(jobs, d.history) &&
    d.balances == MoveAll(initial, AllPostings(jobs, d.history)) &&
    forall t :: t in d.queue ==> d.queue[t].job.trade == t && Copy(jobs, d.queue[t].job)
  }

  datatype Event =
    | Enqueue(trade: string)
    | Fetch(worker: nat, copies: seq<Job>)    // a worker reads jobs; its copies may be old
    | Work(worker: nat, fails: bool, lost: bool)
    | Crash(worker: nat)

  datatype System = System(db: Db, workers: map<nat, seq<Job>>)

  function Jobs(s: System, w: nat): seq<Job> { if w in s.workers then s.workers[w] else [] }

  predicate EventOk(jobs: Trades, e: Event) {
    e.Fetch? ==> forall i :: 0 <= i < |e.copies| ==> Copy(jobs, e.copies[i])
  }

  function Step(jobs: Trades, s: System, e: Event): System {
    match e
    case Enqueue(t) =>
      s.(db := s.db.(queue := s.db.queue[t := if t in s.db.queue then s.db.queue[t].(status := Pending) else Row(jobs(t), Pending)]))
    case Fetch(w, copies) => s.(workers := s.workers[w := copies])
    case Work(w, fails, lost) =>
      if Jobs(s, w) == [] then s
      else System(Attempt(s.db, Jobs(s, w)[0], fails, lost), s.workers[w := Jobs(s, w)[1..]])
    case Crash(w) => s.(workers := s.workers - {w})
  }

  function Run(jobs: Trades, s: System, events: seq<Event>): System
    decreases |events|
  {
    if events == [] then s else Run(jobs, Step(jobs, s, events[0]), events[1..])
  }

  /** The system is booked and every worker holds copies of real jobs. */
  predicate Sound(jobs: Trades, initial: Balances, s: System) {
    Booked(jobs, initial, s.db) &&
    forall w :: w in s.workers ==> forall i :: 0 <= i < |s.workers[w]| ==> Copy(jobs, s.workers[w][i])
  }

  lemma SamePostings(jobs: Trades, j: Job)
    requires Copy(jobs, j)
    ensures Postings(j) == Postings(jobs(j.trade))
  {
    assert j.Value() == jobs(j.trade).Value();
  }

  /** Every entry of the ledger belongs to a completed trade. */
  lemma {:induction false} EntryOrigin(jobs: Trades, done: seq<string>, i: nat) returns (t: string, k: nat)
    requires i < |AllEntries(jobs, done)|
    ensures t in done && k < |Postings(jobs(t))| && AllEntries(jobs, done)[i] == EntryOf(t, Postings(jobs(t))[k])
    decreases |done|
  {
    var before := AllEntries(jobs, done[..|done| - 1]);
    if i < |before| {
      t, k := EntryOrigin(jobs, done[..|done| - 1], i);
    } else {
      t, k := done[|done| - 1], i - |before|;
    }
  }

  lemma {:induction false} EntryPresent(jobs: Trades, done: seq<string>, t: string, k: nat)
    requires t in done && k < |Postings(jobs(t))|
    ensures HasId(AllEntries(jobs, done), EntryId(Postings(jobs(t))[k].leg, t))
    decreases |done|
  {
    hide Postings, EntryId;
    var last, before := done[|done| - 1], AllEntries(jobs, done[..|done| - 1]);
    if t == last {
      assert AllEntries(jobs, done)[|before| + k].id == EntryId(Postings(jobs(t))[k].leg, t);
    } else {
      EntryPresent(jobs, done[..|done| - 1], t, k);
      var i :| 0 <= i < |before| && before[i].id == EntryId(Postings(jobs(t))[k].leg, t);
      assert AllEntries(jobs, done)[i] == before[i];
    }
  }

  /** A second settlement of a completed trade always violates the primary key, a first one never. */
  lemma ClashIff(jobs: Trades, d: Db, initial: Balances, j: Job)
    requires Booked(jobs, initial, d) && Copy(jobs, j)
    ensures Clash(d.ledger, j) <==> j.trade in d.history
  {
    hide EntryId, Move;
    SamePostings(jobs, j);
    if j.trade in d.history {
      EntryPresent(jobs, d.history, j.trade, 0);
    }
    if Clash(d.ledger, j) {
      var k :| 0 <= k < |Postings(j)| && HasId(d.ledger, EntryId(Postings(j)[k].leg, j.trade));
      var i :| 0 <= i < |d.ledger| && d.ledger[i].id == EntryId(Postings(j)[k].leg, j.trade);
      var t, n := EntryOrigin(jobs, d.history, i);
      EntryIdInjective(Postings(j)[k].leg, j.trade, Postings(jobs(t))[n].leg, t);
    }
  }

  lemma {:induction false} MoveConcat(b: Balances, ps: seq<Posting>, qs: seq<Posting>)
    ensures MoveAll(b, ps + qs) == MoveAll(MoveAll(b, ps), qs)
    decreases |ps|
  {
    hide Move;
    if ps == [] {
      assert ps + qs == qs;
    } else {
      assert (ps + qs)[1..] == ps[1..] + qs;
      MoveConcat(Move(b, ps[0]), ps[1..], qs);
    }
  }

  lemma OneMore(jobs: Trades, done: seq<string>, t: string)
    ensures AllPostings(jobs, done + [t]) == AllPostings(jobs, done) + Postings(jobs(t))
    ensures AllEntries(jobs, done + [t]) == AllEntries(jobs, done) + EntriesOf(t, Postings(jobs(t)))
  {
    hide Postings;
    assert (done + [t])[..|done|] == done;
  }

  lemma TransactBooked(jobs: Trades, initial: Balances, d: Db, j: Job, fails: bool)
    requires Booked(jobs, initial, d) && Copy(jobs, j)
    ensures Booked(jobs, initial, Transact(d, j, fails).0)
    ensures Transact(d, j, fails).1 <==> !fails && j.trade !in d.history
    ensures Transact(d, j, fails).1 ==> j.trade in Transact(d, j, fails).0.history
  {
    hide Postings, MoveAll, Clash, AllEntries, AllPostings, EntriesOf, TxId;
    ClashIff(jobs, d, initial, j);
    SamePostings(jobs, j);
    OneMore(jobs, d.history, j.trade);
    MoveConcat(initial, AllPostings(jobs, d.history), Postings(j));
  }

  lemma AttemptBooked(jobs: Trades, initial: Balances, d: Db, j: Job, fails: bool, lost: bool)
    requires Booked(jobs, initial, d) && Copy(jobs, j)
    ensures Booked(jobs, initial, Attempt(d, j, fails, lost))
  {
    hide Transact, AllEntries, AllPostings, MoveAll;
    TransactBooked(jobs, initial, d, j, fails);
    TransactKeeps(d, j, fails);
  }

  lemma TransactKeeps(d: Db, j: Job, fails: bool)
    ensures !Transact(d, j, fails).1 ==> Transact(d, j, fails).0 == d
  {}

  lemma StepSound(jobs: Trades, initial: Balances, s: System, e: Event)
    requires TradesOk(jobs) && Sound(jobs, initial, s) && EventOk(jobs, e)
    ensures Sound(jobs, initial, Step(jobs, s, e))
  {
    hide Attempt, AllEntries, AllPostings, MoveAll, JobOk;
    if e.Work? && Jobs(s, e.worker) != [] {
      AttemptBooked(jobs, initial, s.db, Jobs(s, e.worker)[0], e.fails, e.lost);
    }
  }

  /** Whatever the workers, their crashes, failing statements and commits, lost status updates and
      repeated submissions: balances and ledger are those of the completed trades, each settled once. */
  lemma {:induction false} SettledOnce(jobs: Trades, initial: Balances, s: System, events: seq<Event>)
    requires TradesOk(jobs) && Sound(jobs, initial, s) && forall i :: 0 <= i < |events| ==> EventOk(jobs, events[i])
    ensures Sound(jobs, initial, Run(jobs, s, events))
    decreases |events|
  {
    hide Sound, Step;
    if events != [] {
      StepSound(jobs, initial, s, events[0]);
      SettledOnce(jobs, initial, Step(jobs, s, events[0]), events[1..]);
    }
  }

  // ---------------------------------------------------------------------------
  // What a booked database means
  // ---------------------------------------------------------------------------

  /** The entries of one ledger transaction. */
  function OfTx(ledger: seq<Entry>, tx: string): seq<Entry> {
    if ledger == [] then [] else (if ledger[0].tx == tx then [ledger[0]] else []) + OfTx(ledger[1..], tx)
  }

  lemma {:induction false} OfTxConcat(a: seq<Entry>, b: seq<Entry>, tx: string)
    ensures OfTx(a + b, tx) == OfTx(a, tx) + OfTx(b, tx)
    decreases |a|
  {
    if a == [] {
      assert a + b == b;
    } else {
      assert (a + b)[1..] == a[1..] + b && (a + b)[0] == a[0];
      OfTxConcat(a[1..], b, tx);
    }
  }

  lemma {:induction false} OfTxAll(es: seq<Entry>, tx: string, other: string)
    requires forall i :: 0 <= i < |es| ==> es[i].tx == other
    ensures OfTx(es, tx) == if tx == other then es else []
    decreases |es|
  {
    if es != [] { OfTxAll(es[1..], tx, other); }
  }

  lemma TxIdInjective(t: string, u: string)
    ensures TxId(t) == TxId(u) ==> t == u
  {
    assert TxId(t)[10..] == t && TxId(u)[10..] == u;
  }

  lemma {:induction false} TxEntries(jobs: Trades, done: seq<string>, t: string)
    requires NoRepeat(done)
    ensures OfTx(AllEntries(jobs, done), TxId(t)) == if t in done then EntriesOf(t, Postings(jobs(t))) else []
    decreases |done|
  {
    hide Postings, TxId, EntryId;
    if done != [] {
      var last, before := done[|done| - 1], done[..|done| - 1];
      TxEntries(jobs, before, t);
      OfTxConcat(AllEntries(jobs, before), EntriesOf(last, Postings(jobs(last))), TxId(t));
      OfTxAll(EntriesOf(last, Postings(jobs(last))), TxId(t), TxId(last));
      TxIdInjective(t, last);
      assert t in done <==> t in before || t == last;
    }
  }

  lemma {:induction false} EntriesUnique(jobs: Trades, done: seq<string>)
    requires NoRepeat(done)
    ensures UniqueIds(AllEntries(jobs, done))
    decreases |done|
  {
    hide Postings, EntryId;
    if done != [] {
      var last, before := done[|done| - 1], done[..|done| - 1];
      EntriesUnique(jobs, before);
      LegsDistinct(jobs(last));
      var all, n := AllEntries(jobs, done), |AllEntries(jobs, before)|;
      forall i, j | 0 <= i < j < |all| ensures all[i].id != all[j].id {
        if j >= n {
          var p := Postings(jobs(last))[j - n];
          assert all[j] == EntryOf(last, p);
          if i < n {
            var t, k := EntryOrigin(jobs, before, i);
            if all[i].id == all[j].id { EntryIdInjective(Postings(jobs(t))[k].leg, t, p.leg, last); }
          } else {
            if all[i].id == all[j].id { EntryIdInjective(Postings(jobs(last))[i - n].leg, last, p.leg, last); }
          }
        }
      }
    }
  }

  /** A trade's postings are all in the ledger, once, exactly when the trade is completed, and none of
      them is there otherwise; no ledger identifier is used twice. */
  lemma AllOrNothing(jobs: Trades, initial: Balances, d: Db, t: string)
    requires Booked(jobs, initial, d)
    ensures OfTx(d.ledger, TxId(t)) == if t in d.history then EntriesOf(t, Postings(jobs(t))) else []
    ensures UniqueIds(d.ledger)
  {
    TxEntries(jobs, d.history, t);
    EntriesUnique(jobs, d.history);
  }

  /** Credits minus debits of an account in the ledger. */
  function LedgerNet(ledger: seq<Entry>, a: Account): real {
    if ledger == [] then 0.0
    else (if ledger[0].account == a then if ledger[0].credit then ledger[0].amount else -ledger[0].amount else 0.0) +
         LedgerNet(ledger[1..], a)
  }

  lemma {:induction false} LedgerNetConcat(x: seq<Entry>, y: seq<Entry>, a: Account)
    ensures LedgerNet(x + y, a) == LedgerNet(x, a) + LedgerNet(y, a)
    decreases |x|
  {
    if x == [] {
      assert x + y == y;
    } else {
      assert (x + y)[1..] == x[1..] + y && (x + y)[0] == x[0];
      LedgerNetConcat(x[1..], y, a);
    }
  }

  lemma {:induction false} NetConcat(x: seq<Posting>, y: seq<Posting>, a: Account)
    ensures Net(x + y, a) == Net(x, a) + Net(y, a)
    decreases |x|
  {
    if x == [] {
      assert x + y == y;
    } else {
      assert (x + y)[1..] == x[1..] + y && (x + y)[0] == x[0];
      NetConcat(x[1..], y, a);
    }
  }

  lemma {:induction false} EntriesNet(t: string, ps: seq<Posting>, a: Account)
    ensures LedgerNet(EntriesOf(t, ps), a) == Net(ps, a)
    decreases |ps|
  {
    hide EntryId, TxId;
    if ps != [] {
      EntriesNet(t, ps[1..], a);
      assert EntriesOf(t, ps)[1..] == EntriesOf(t, ps[1..]);
    }
  }

  lemma {:induction false} LedgerIsPostings(jobs: Trades, done: seq<string>, a: Account)
    ensures LedgerNet(AllEntries(jobs, done), a) == Net(AllPostings(jobs, done), a)
    decreases |done|
  {
    hide Postings, Net, LedgerNet, EntriesOf;
    if done == [] {
      Nothing(a);
    } else {
      var last, before := done[|done| - 1], done[..|done| - 1];
      LedgerIsPostings(jobs, before, a);
      EntriesNet(last, Postings(jobs(last)), a);
      LedgerNetConcat(AllEntries(jobs, before), EntriesOf(last, Postings(jobs(last))), a);
      NetConcat(AllPostings(jobs, before), Postings(jobs(last)), a);
    }
  }

  lemma Nothing(a: Account)
    ensures LedgerNet([], a) == 0.0 && Net([], a) == 0.0
  {}

  lemma {:induction false} AllDebitsOk(jobs: Trades, done: seq<string>)
    requires TradesOk(jobs)
    ensures DebitsOk(AllPostings(jobs, done))
    decreases |done|
  {
    hide Postings;
    if done != [] {
      AllDebitsOk(jobs, done[..|done| - 1]);
      PostingsOk(jobs(done[|done| - 1]));
    }
  }

  /** The ledger explains the balances: each account's total is its initial total plus its credits
      minus its debits, exactly when every debit found its row. */
  lemma LedgerExplains(jobs: Trades, initial: Balances, d: Db)
    requires TradesOk(jobs) && Booked(jobs, initial, d)
    ensures Found(initial, AllPostings(jobs, d.history)) <==>
      forall a :: Total(d.balances, a) == Total(initial, a) + LedgerNet(d.ledger, a)
  {
    hide Postings, MoveAll, Found;
    AllDebitsOk(jobs, d.history);
    ExplainedIff(initial, AllPostings(jobs, d.history));
    forall a ensures LedgerNet(d.ledger, a) == Net(AllPostings(jobs, d.history), a) { LedgerIsPostings(jobs, d.history, a); }
  }

  lemma {:induction false} NoRow(b: Balances, ps: seq<Posting>, a: Account)
    requires a !in b && forall i :: 0 <= i < |ps| && ps[i].credit ==> ps[i].account != a
    ensures a !in MoveAll(b, ps)
    decreases |ps|
  {
    if ps != [] { NoRow(Move(b, ps[0]), ps[1..], a); }
  }

  /** A sale by somebody else than the buyer and the platform, with fees in the quote asset. */
  predicate PlainSale(j: Job) {
    j.seller != j.buyer && j.seller != PLATFORM && j.base != j.quote && j.qty > 0.0 &&
    j.BuyerPaysIn() == j.quote && j.SellerPaysIn() == j.quote
  }

  lemma SaleNet(j: Job)
    requires PlainSale(j)
    ensures Net(Postings(j), Account(j.seller, j.base)) == -j.qty
    ensures forall i :: 0 <= i < |Postings(j)| && Postings(j)[i].credit ==> Postings(j)[i].account != Account(j.seller, j.base)
  {
    hide Net;
    var a, ps := Account(j.seller, j.base), Postings(j);
    assert |ps| == 6 && ps[0] == Payment(j) && ps[1..3] == Delivery(j) && ps[3] == Proceeds(j) && ps[4..] == Revenue(j);
    Nothing(a);
    assert ps[6..] == [];
    for i := 6 downto 3
      invariant Net(ps[i..], a) == 0.0
    {
      NetFrom(ps, i, a);
    }
    NetFrom(ps, 2, a);
    NetFrom(ps, 1, a);
    NetFrom(ps, 0, a);
    assert ps[0..] == ps;
  }

  lemma NetFrom(ps: seq<Posting>, i: nat, a: Account)
    requires i < |ps|
    ensures Net(ps[i..], a) == (if ps[i].account == a then ps[i].Signed() else 0.0) + Net(ps[i + 1..], a)
  {
    assert ps[i..][1..] == ps[i + 1..] && ps[i..][0] == ps[i];
  }

  /** The ledger does not always explain the balances: a seller without a row for the base asset, as
      the external counterparty is, is debited in the ledger and nowhere else. */
  lemma UnexplainedSale(d: Db, j: Job)
    requires PlainSale(j) && d.ledger == [] && Account(j.seller, j.base) !in d.balances
    ensures
      var a, (after, ok) := Account(j.seller, j.base), Transact(d, j, false);
      ok && Total(d.balances, a) == Total(after.balances, a) == 0.0 && LedgerNet(after.ledger, a) == -j.qty
  {
    hide Postings, MoveAll, LedgerNet, Net, EntryId, EntriesOf;
    var a := Account(j.seller, j.base);
    SaleNet(j);
    NoRow(d.balances, Postings(j), a);
    EntriesNet(j.trade, Postings(j), a);
    assert [] + EntriesOf(j.trade, Postings(j)) == EntriesOf(j.trade, Postings(j));
  }

  /** The sum of a ledger transaction in each asset is zero. */
  function TxNet(ledger: seq<Entry>, asset: string): real {
    if ledger == [] then 0.0
    else (if ledger[0].account.asset == asset then if ledger[0].credit then ledger[0].amount else -ledger[0].amount else 0.0) +
         TxNet(ledger[1..], asset)
  }

  lemma {:induction false} EntriesAssetNet(t: string, ps: seq<Posting>, asset: string)
    ensures TxNet(EntriesOf(t, ps), asset) == AssetNet(ps, asset)
    decreases |ps|
  {
    hide EntryId, TxId;
    if ps != [] {
      EntriesAssetNet(t, ps[1..], asset);
      assert EntriesOf(t, ps)[1..] == EntriesOf(t, ps[1..]);
    }
  }

  /** Every ledger transaction balances in every asset. */
  lemma EveryTransactionBalances(jobs: Trades, initial: Balances, d: Db, t: string, asset: string)
    requires Booked(jobs, initial, d)
    ensures TxNet(OfTx(d.ledger, TxId(t)), asset) == 0.0
  {
    AllOrNothing(jobs, initial, d, t);
    EntriesAssetNet(t, Postings(jobs(t)), asset);
    SettlementBalances(jobs(t), asset);
  }

  // ---------------------------------------------------------------------------
  // Attempts and final states, with any number of workers
  // ---------------------------------------------------------------------------

  /** A run with its book-keeping: the trades submitted, and for each trade with a row, since the row was
      entered, its attempts, its lost status updates, and its slips: by how much updates written from
      older copies have set the row's retry count back. */
  datatype Tally = Tally(
    sys: System, seen: set<string>, attempts: map<string, nat>, losses: map<string, nat>, slips: map<string, int>)

  function Count(m: map<string, nat>, t: string): nat { if t in m then m[t] else 0 }

  function Tick(m: map<string, nat>, t: string): map<string, nat> { m[t := Count(m, t) + 1] }

  function Slip(m: map<string, int>, t: string): int { if t in m then m[t] else 0 }

  function Tell(jobs: Trades, t: Tally, e: Event): Tally {
    var u := t.(sys := Step(jobs, t.sys, e));
    match e
    case Enqueue(x) =>
      if x in t.sys.db.queue then u.(seen := t.seen + {x})
      else u.(seen := t.seen + {x}, attempts := t.attempts - {x}, losses := t.losses - {x}, slips := t.slips - {x})
    case Work(w, fails, lost) =>
      if Jobs(t.sys, w) == [] || Jobs(t.sys, w)[0].trade !in t.sys.db.queue then u
      else Worked(u, t.sys.db, Jobs(t.sys, w)[0], fails, lost)
    case _ => u
  }

  /** The counters after an attempt at a trade that has a row. */
  function Worked(u: Tally, d: Db, j: Job, fails: bool, lost: bool): Tally
    requires j.trade in d.queue
  {
    var ok := Transact(d, j, fails).1;
    u.(attempts := Tick(u.attempts, j.trade),
       losses := if !ok && lost then Tick(u.losses, j.trade) else u.losses,
       slips := if !ok && !lost then u.slips[j.trade := Slip(u.slips, j.trade) + d.queue[j.trade].job.retries - j.retries]
                else u.slips)
  }

  function TellAll(jobs: Trades, t: Tally, events: seq<Event>): Tally
    decreases |events|
  {
    if events == [] then t else TellAll(jobs, Tell(jobs, t, events[0]), events[1..])
  }

  /** Every attempt at a trade is in its row's retry count, was lost, or has been set back; a row is
      given up only beyond the limit. */
  predicate Explained(t: Tally) {
    forall x :: x in t.sys.db.queue ==>
      RowExplained(t.sys.db.queue[x], Count(t.attempts, x), Count(t.losses, x), Slip(t.slips, x))
  }

  predicate RowExplained(r: Row, attempts: nat, losses: nat, slips: int) {
    attempts == r.job.retries + losses + slips && (r.status.Failed? ==> r.job.retries > MAX_RETRIES)
  }

  lemma TickCounts(m: map<string, nat>, x: string, y: string)
    ensures Count(Tick(m, x), y) == Count(m, y) + if y == x then 1 else 0
  {}

  lemma SlipCounts(m: map<string, int>, x: string, v: int, y: string)
    ensures Slip(m[x := v], y) == if y == x then v else Slip(m, y)
  {}

  lemma Forgotten(m: map<string, nat>, k: map<string, int>, x: string, y: string)
    ensures Count(m - {x}, y) == if y == x then 0 else Count(m, y)
    ensures Slip(k - {x}, y) == if y == x then 0 else Slip(k, y)
  {}

  /** The effect of an attempt on the queue. */
  lemma AttemptQueue(d: Db, j: Job, fails: bool, lost: bool)
    requires j.trade in d.queue
    ensures
      var (ok, after) := (Transact(d, j, fails).1, Attempt(d, j, fails, lost).queue);
      after == if ok then d.queue - {j.trade}
               else if lost then d.queue
               else d.queue[j.trade := Row(j.(retries := j.retries + 1), if j.retries + 1 <= MAX_RETRIES then Retrying else Failed)]
  {
    hide Clash, Postings, EntriesOf, MoveAll;
  }

  lemma AttemptElsewhere(d: Db, j: Job, fails: bool, lost: bool)
    requires j.trade !in d.queue
    ensures Attempt(d, j, fails, lost).queue == d.queue
  {
    hide Clash, Postings, EntriesOf, MoveAll;
  }

  lemma EnqueueExplained(jobs: Trades, t: Tally, x: string)
    requires TradesOk(jobs) && Explained(t)
    ensures Explained(Tell(jobs, t, Enqueue(x)))
  {
    hide JobOk, Transact, Count, Slip;
    var u := Tell(jobs, t, Enqueue(x));
    forall y | y in u.sys.db.queue
      ensures RowExplained(u.sys.db.queue[y], Count(u.attempts, y), Count(u.losses, y), Slip(u.slips, y))
    {
      Forgotten(t.attempts, t.slips, x, y);
      Forgotten(t.losses, t.slips, x, y);
      if y in t.sys.db.queue { assert RowExplained(t.sys.db.queue[y], Count(t.attempts, y), Count(t.losses, y), Slip(t.slips, y)); }
    }
  }

  lemma WorkExplained(jobs: Trades, t: Tally, w: nat, fails: bool, lost: bool)
    requires Explained(t)
    ensures Explained(Tell(jobs, t, Work(w, fails, lost)))
  {
    hide Attempt, Transact, Count, Slip, Tick;
    if Jobs(t.sys, w) != [] {
      var d, j := t.sys.db, Jobs(t.sys, w)[0];
      if j.trade in d.queue {
        AttemptQueue(d, j, fails, lost);
        var u := Tell(jobs, t, Work(w, fails, lost));
        forall y | y in u.sys.db.queue
          ensures RowExplained(u.sys.db.queue[y], Count(u.attempts, y), Count(u.losses, y), Slip(u.slips, y))
        {
          TickCounts(t.attempts, j.trade, y);
          TickCounts(t.losses, j.trade, y);
          SlipCounts(t.slips, j.trade, Slip(t.slips, j.trade) + d.queue[j.trade].job.retries - j.retries, y);
          assert RowExplained(d.queue[y], Count(t.attempts, y), Count(t.losses, y), Slip(t.slips, y));
        }
      } else {
        AttemptElsewhere(d, j, fails, lost);
      }
    }
  }

  /** Through every run of any number of workers the attempts at a trade are exactly its recorded
      retries, its lost updates and its slips. */
  lemma {:induction false} AttemptsExplained(jobs: Trades, t: Tally, events: seq<Event>)
    requires TradesOk(jobs) && Explained(t)
    ensures Explained(TellAll(jobs, t, events))
    decreases |events|
  {
    hide Tell, Explained, TradesOk;
    if events != [] {
      match events[0] {
        case Enqueue(x) => EnqueueExplained(jobs, t, x);
        case Work(w, fails, lost) => WorkExplained(jobs, t, w, fails, lost);
        case _ => IdleExplained(jobs, t, events[0]);
      }
      AttemptsExplained(jobs, Tell(jobs, t, events[0]), events[1..]);
    }
  }

  lemma IdleExplained(jobs: Trades, t: Tally, e: Event)
    requires Explained(t) && (e.Fetch? || e.Crash?)
    ensures Explained(Tell(jobs, t, e))
  {}

  /** The attempts at a trade that has a row are the retries its row records. */
  predicate Counted(t: Tally, x: string) { x in t.sys.db.queue ==> Count(t.attempts, x) == t.sys.db.queue[x].job.retries }

  /** A failing attempt whose update is lost, or is written from a copy with other retries than the row. */
  predicate Strays(s: System, e: Event, x: string) {
    e.Work? && Jobs(s, e.worker) != [] && Jobs(s, e.worker)[0].trade == x && x in s.db.queue &&
    !Transact(s.db, Jobs(s, e.worker)[0], e.fails).1 && (e.lost || Jobs(s, e.worker)[0].retries != s.db.queue[x].job.retries)
  }

  /** With any number of workers, a step keeps the count of a trade exactly when it does not stray. */
  lemma CountedIff(jobs: Trades, t: Tally, e: Event, x: string)
    requires TradesOk(jobs) && Counted(t, x)
    ensures Counted(Tell(jobs, t, e), x) <==> !Strays(t.sys, e, x)
  {
    hide Transact, Attempt, Count, Tick, JobOk, Slip;
    match e
    case Enqueue(y) => Forgotten(t.attempts, t.slips, y, x);
    case Work(w, fails, lost) =>
      if Jobs(t.sys, w) != [] {
        var d, j := t.sys.db, Jobs(t.sys, w)[0];
        if j.trade in d.queue {
          AttemptQueue(d, j, fails, lost);
          TickCounts(t.attempts, j.trade, x);
        } else {
          AttemptElsewhere(d, j, fails, lost);
        }
      }
    case _ =>
  }

  predicate StaysCounted(jobs: Trades, t: Tally, events: seq<Event>, x: string)
    decreases |events|
  {
    Counted(t, x) && (events == [] || StaysCounted(jobs, Tell(jobs, t, events[0]), events[1..], x))
  }

  predicate SomeStrays(jobs: Trades, t: Tally, events: seq<Event>, x: string)
    decreases |events|
  {
    events != [] && (Strays(t.sys, events[0], x) || SomeStrays(jobs, Tell(jobs, t, events[0]), events[1..], x))
  }

  /** Through a run of any number of workers the attempts at a trade are the retries its row records, all
      along, if and only if no event of the run strays. */
  lemma {:induction false} CountedThroughout(jobs: Trades, t: Tally, events: seq<Event>, x: string)
    requires TradesOk(jobs) && Counted(t, x)
    ensures StaysCounted(jobs, t, events, x) <==> !SomeStrays(jobs, t, events, x)
    decreases |events|
  {
    hide TradesOk, Counted, Strays, Tell;
    if events != [] {
      CountedIff(jobs, t, events[0], x);
      if Counted(Tell(jobs, t, events[0]), x) { CountedThroughout(jobs, Tell(jobs, t, events[0]), events[1..], x); }
    }
  }

  // ---------------------------------------------------------------------------
  // Final states
  // ---------------------------------------------------------------------------

  /** Completed, or given up after the last retry. */
  predicate Terminal(d: Db, x: string) { x in d.history || (x in d.queue && d.queue[x].status.Failed?) }

  /** A completed trade stays completed, whatever any worker does. */
  lemma CompletedStays(jobs: Trades, s: System, e: Event, x: string)
    requires x in s.db.history
    ensures x in Step(jobs, s, e).db.history
  {}

  lemma {:induction false} CompletedForever(jobs: Trades, s: System, events: seq<Event>, x: string)
    requires x in s.db.history
    ensures x in Run(jobs, s, events).db.history
    decreases |events|
  {
    hide Step;
    if events != [] {
      CompletedStays(jobs, s, events[0], x);
      CompletedForever(jobs, Step(jobs, s, events[0]), events[1..], x);
    }
  }

  /** What takes a given-up trade up again: it is submitted anew, or an attempt from a copy with retries
      left fails and its update is not lost. */
  predicate Revives(s: System, e: Event, x: string) {
    x !in s.db.history &&
    match e
    case Enqueue(t) => t == x
    case Work(w, fails, lost) =>
      Jobs(s, w) != [] && Jobs(s, w)[0].trade == x && fails && !lost && Jobs(s, w)[0].retries < MAX_RETRIES
    case _ => false
  }

  lemma AttemptTerminal(jobs: Trades, initial: Balances, d: Db, j: Job, fails: bool, lost: bool, x: string)
    requires Booked(jobs, initial, d) && Copy(jobs, j) && Terminal(d, x)
    ensures Terminal(Attempt(d, j, fails, lost), x) <==>
      !(x !in d.history && j.trade == x && fails && !lost && j.retries < MAX_RETRIES)
  {
    hide AllEntries, AllPostings, MoveAll, Clash, Postings, EntriesOf;
    ClashIff(jobs, d, initial, j);
  }

  /** With any number of workers a trade in a final state leaves it exactly by one of these steps. */
  lemma TerminalIff(jobs: Trades, initial: Balances, s: System, e: Event, x: string)
    requires Sound(jobs, initial, s) && Terminal(s.db, x)
    ensures Terminal(Step(jobs, s, e).db, x) <==> !Revives(s, e, x)
  {
    hide Attempt, AllEntries, AllPostings, MoveAll;
    if e.Work? && Jobs(s, e.worker) != [] {
      AttemptTerminal(jobs, initial, s.db, Jobs(s, e.worker)[0], e.fails, e.lost, x);
    }
  }

  /** Is the trade in a final state all along a run? */
  predicate StaysTerminal(jobs: Trades, s: System, events: seq<Event>, x: string)
    decreases |events|
  {
    Terminal(s.db, x) && (events == [] || StaysTerminal(jobs, Step(jobs, s, events[0]), events[1..], x))
  }

  predicate SomeRevives(jobs: Trades, s: System, events: seq<Event>, x: string)
    decreases |events|
  {
    events != [] && (Revives(s, events[0], x) || SomeRevives(jobs, Step(jobs, s, events[0]), events[1..], x))
  }

  /** A trade in a final state stays in one all along a run, if and only if no event of it revives it. */
  lemma {:induction false} TerminalThroughout(jobs: Trades, initial: Balances, s: System, events: seq<Event>, x: string)
    requires TradesOk(jobs) && Sound(jobs, initial, s) && Terminal(s.db, x)
    requires forall i :: 0 <= i < |events| ==> EventOk(jobs, events[i])
    ensures StaysTerminal(jobs, s, events, x) <==> !SomeRevives(jobs, s, events, x)
    decreases |events|
  {
    hide TradesOk, Sound, Terminal, Revives, Step, EventOk;
    if events != [] {
      StepSound(jobs, initial, s, events[0]);
      TerminalIff(jobs, initial, s, events[0], x);
      if Terminal(Step(jobs, s, events[0]).db, x) {
        TerminalThroughout(jobs, initial, Step(jobs, s, events[0]), events[1..], x);
      } else if events[1..] == [] {
      }
    }
  }

  // ---------------------------------------------------------------------------
  // Two runs that break the limit
  // ---------------------------------------------------------------------------

  const EMPTY := Tally(System(Db(map[], [], map[], []), map[]), {}, map[], map[], map[])

  /** Where every run may start. */
  lemma EmptyIsSound(jobs: Trades)
    ensures Sound(jobs, map[], EMPTY.sys) && Explained(EMPTY) && Bounded(jobs, map[], EMPTY)
  {}

  lemma TellFirst(jobs: Trades, t: Tally, e: Event, rest: seq<Event>)
    ensures TellAll(jobs, t, [e] + rest) == TellAll(jobs, Tell(jobs, t, e), rest)
  {
    assert ([e] + rest)[1..] == rest;
  }

  lemma {:induction false} TellConcat(jobs: Trades, t: Tally, a: seq<Event>, b: seq<Event>)
    ensures TellAll(jobs, t, a + b) == TellAll(jobs, TellAll(jobs, t, a), b)
    decreases |a|
  {
    hide Tell;
    if a == [] {
      assert a + b == b;
    } else {
      assert (a + b)[0] == a[0] && (a + b)[1..] == a[1..] + b;
      TellConcat(jobs, Tell(jobs, t, a[0]), a[1..], b);
    }
  }

  /** One worker reads a job and its attempt fails, `n` times over. */
  function Rounds(w: nat, j: Job, lost: bool, n: nat): seq<Event>
    decreases n
  {
    if n == 0 then []
    else [Fetch(w, [j])] + ([Work(w, true, lost)] + Rounds(w, if lost then j else j.(retries := j.retries + 1), lost, n - 1))
  }

  lemma FirstRound(jobs: Trades, t: Tally, w: nat, j: Job, lost: bool, n: nat)
    requires n > 0
    ensures
      var next := if lost then j else j.(retries := j.retries + 1);
      TellAll(jobs, t, Rounds(w, j, lost, n)) ==
      TellAll(jobs, Tell(jobs, Tell(jobs, t, Fetch(w, [j])), Work(w, true, lost)), Rounds(w, next, lost, n - 1))
  {
    hide Tell, TellAll;
    var rest := Rounds(w, if lost then j else j.(retries := j.retries + 1), lost, n - 1);
    TellFirst(jobs, t, Fetch(w, [j]), [Work(w, true, lost)] + rest);
    TellFirst(jobs, Tell(jobs, t, Fetch(w, [j])), Work(w, true, lost), rest);
  }

  lemma NoRounds(jobs: Trades, t: Tally, w: nat, j: Job, lost: bool)
    ensures TellAll(jobs, t, Rounds(w, j, lost, 0)) == t
  {}

  predicate Waits(t: Tally, j: Job) { j.trade in t.sys.db.queue && t.sys.db.queue[j.trade].job == j }

  lemma RoundEffect(jobs: Trades, t: Tally, w: nat, j: Job, lost: bool)
    requires Waits(t, j)
    ensures
      var u := Tell(jobs, Tell(jobs, t, Fetch(w, [j])), Work(w, true, lost));
      var x := j.trade;
      u.sys.workers == t.sys.workers[w := []] && u.sys.db == (if lost then t.sys.db else t.sys.db.(queue := t.sys.db.queue[x :=
        Row(j.(retries := j.retries + 1), if j.retries + 1 <= MAX_RETRIES then Retrying else Failed)])) &&
      Count(u.attempts, x) == Count(t.attempts, x) + 1 && Slip(u.slips, x) == Slip(t.slips, x) &&
      Count(u.losses, x) == Count(t.losses, x) + if lost then 1 else 0
  {
    hide Clash, Settled, Postings;
    assert [j][1..] == [];
    var a := Tell(jobs, t, Fetch(w, [j]));
    assert a.sys.workers[w] == [j];
  }

  /** Updates that are lost count for nothing: the trade waits as before after any number of attempts. */
  lemma {:induction false} LostUpdatesUnbounded(jobs: Trades, t: Tally, w: nat, j: Job, n: nat)
    requires Waits(t, j)
    ensures
      var u := TellAll(jobs, t, Rounds(w, j, true, n));
      u.sys.db == t.sys.db && Count(u.attempts, j.trade) == Count(t.attempts, j.trade) + n &&
      Count(u.losses, j.trade) == Count(t.losses, j.trade) + n
    decreases n
  {
    hide Tell;
    if n > 0 {
      FirstRound(jobs, t, w, j, true, n);
      RoundEffect(jobs, t, w, j, true);
      LostUpdatesUnbounded(jobs, Tell(jobs, Tell(jobs, t, Fetch(w, [j])), Work(w, true, true)), w, j, n - 1);
    }
  }

  /** With one worker and lost updates the limit is exceeded by any number: a new trade attempted `n`
      times is still pending. */
  lemma LostUpdatesExceed(jobs: Trades, x: string, n: nat)
    requires TradesOk(jobs)
    ensures
      var u := TellAll(jobs, EMPTY, [Enqueue(x)] + Rounds(0, jobs(x), true, n));
      x in u.sys.db.queue && u.sys.db.queue[x] == Row(jobs(x), Pending) && Count(u.attempts, x) == n == Count(u.losses, x)
  {
    hide JobOk;
    var a := Tell(jobs, EMPTY, Enqueue(x));
    TellFirst(jobs, EMPTY, Enqueue(x), Rounds(0, jobs(x), true, n));
    LostUpdatesUnbounded(jobs, a, 0, jobs(x), n);
  }

  /** Recorded failures use up the retries. */
  lemma {:induction false} FailingRounds(jobs: Trades, t: Tally, w: nat, j: Job, n: nat)
    requires Waits(t, j) && n > 0
    ensures
      var u := TellAll(jobs, t, Rounds(w, j, false, n));
      var x := j.trade;
      x in u.sys.db.queue && u.sys.db.history == t.sys.db.history && u.sys.db.ledger == t.sys.db.ledger &&
      u.sys.db.queue[x] == Row(j.(retries := j.retries + n), if j.retries + n <= MAX_RETRIES then Retrying else Failed) &&
      u.sys.workers == t.sys.workers[w := []] && Count(u.attempts, x) == Count(t.attempts, x) + n &&
      Count(u.losses, x) == Count(t.losses, x) && Slip(u.slips, x) == Slip(t.slips, x)
    decreases n
  {
    hide Tell, Rounds, TellAll;
    var next := j.(retries := j.retries + 1);
    var b := Tell(jobs, Tell(jobs, t, Fetch(w, [j])), Work(w, true, false));
    FirstRound(jobs, t, w, j, false, n);
    RoundEffect(jobs, t, w, j, false);
    if n > 1 { FailingRounds(jobs, b, w, next, n - 1); } else { NoRounds(jobs, b, w, next, false); }
  }

  /** Two workers read a new job; the first fails it until it is given up; then the second, whose copy
      still has all its retries, fails it too. */
  function GivenUpRun(j: Job): seq<Event> {
    [Enqueue(j.trade)] + ([Fetch(1, [j])] + Rounds(0, j, false, MAX_RETRIES + 1))
  }

  /** With two workers the promise fails: no update is lost, the trade is given up after four attempts,
      and a fifth, from an older copy, has it waiting for its second retry. */
  lemma SecondWorkerRevives(jobs: Trades, x: string)
    requires TradesOk(jobs)
    ensures
      var given := TellAll(jobs, EMPTY, GivenUpRun(jobs(x)));
      var after := TellAll(jobs, EMPTY, GivenUpRun(jobs(x)) + [Work(1, true, false)]);
      Terminal(given.sys.db, x) && Count(given.attempts, x) == MAX_RETRIES + 1 &&
      !Terminal(after.sys.db, x) && Count(after.attempts, x) == MAX_RETRIES + 2 && Count(after.losses, x) == 0 &&
      x in after.sys.db.queue && after.sys.db.queue[x] == Row(jobs(x).(retries := 1), Retrying)
  {
    hide Tell, Waits, JobOk;
    var j := jobs(x);
    var rounds := Rounds(0, j, false, MAX_RETRIES + 1);
    var a := Tell(jobs, EMPTY, Enqueue(x));
    var b := Tell(jobs, a, Fetch(1, [j]));
    TellFirst(jobs, EMPTY, Enqueue(x), [Fetch(1, [j])] + rounds);
    TellFirst(jobs, a, Fetch(1, [j]), rounds);
    TwoReaders(jobs, x);
    FailingRounds(jobs, b, 0, j, MAX_RETRIES + 1);
    var given := TellAll(jobs, EMPTY, GivenUpRun(j));
    TellConcat(jobs, EMPTY, GivenUpRun(j), [Work(1, true, false)]);
    TellFirst(jobs, given, Work(1, true, false), []);
    assert [Work(1, true, false)] + [] == [Work(1, true, false)];
    StaleFailure(jobs, given, j);
  }

  lemma TwoReaders(jobs: Trades, x: string)
    requires TradesOk(jobs)
    ensures
      var b := Tell(jobs, Tell(jobs, EMPTY, Enqueue(x)), Fetch(1, [jobs(x)]));
      Waits(b, jobs(x)) && b.sys.workers == map[1 := [jobs(x)]] && b.sys.db.history == [] && jobs(x).trade == x &&
      Count(b.attempts, x) == 0 && Count(b.losses, x) == 0 && jobs(x).retries == 0
  {
    hide JobOk;
  }

  lemma StaleFailure(jobs: Trades, t: Tally, j: Job)
    requires j.retries == 0 && j.trade in t.sys.db.queue && j.trade !in t.sys.db.history && Jobs(t.sys, 1) == [j]
    ensures
      var u := Tell(jobs, t, Work(1, true, false));
      j.trade in u.sys.db.queue && u.sys.db.queue[j.trade] == Row(j.(retries := 1), Retrying) && !Terminal(u.sys.db, j.trade) &&
      Count(u.attempts, j.trade) == Count(t.attempts, j.trade) + 1 && Count(u.losses, j.trade) == Count(t.losses, j.trade)
  {
    hide Clash, Settled, Postings;
  }

  // ---------------------------------------------------------------------------
  // One worker
  // ---------------------------------------------------------------------------

  predicate FreshCopies(d: Db, copies: seq<Job>) {
    (forall i :: 0 <= i < |copies| ==>
      copies[i].trade in d.queue && d.queue[copies[i].trade].job == copies[i] && !d.queue[copies[i].trade].status.Failed?) &&
    forall i, k :: 0 <= i < k < |copies| ==> copies[i].trade != copies[k].trade
  }

  /** One worker at a time, which reads the queue when it has finished what it read before; each trade
      is submitted once. */
  predicate Solo(t: Tally, e: Event) {
    match e
    case Enqueue(trade) => trade !in t.seen
    case Fetch(w, copies) => w == 0 && Jobs(t.sys, 0) == [] && FreshCopies(t.sys.db, copies)
    case Work(w, _, _) => w == 0
    case Crash(w) => w == 0
  }

  predicate AllSolo(jobs: Trades, t: Tally, events: seq<Event>)
    decreases |events|
  {
    events == [] || (Solo(t, events[0]) && AllSolo(jobs, Tell(jobs, t, events[0]), events[1..]))
  }

  predicate RowOk(r: Row, attempts: nat, losses: nat) {
    attempts == r.job.retries + losses && (if r.status.Failed? then r.job.retries == MAX_RETRIES + 1 else r.job.retries <= MAX_RETRIES)
  }

  /** Rows and counters agree; completed trades have no row. */
  ghost predicate Tallied(queue: map<string, Row>, history: seq<string>, seen: set<string>,
                          attempts: map<string, nat>, losses: map<string, nat>) {
    (forall x :: x in queue ==> RowOk(queue[x], Count(attempts, x), Count(losses, x))) &&
    (forall x :: Count(attempts, x) <= MAX_RETRIES + 1 + Count(losses, x)) &&
    (forall x :: x in queue || x in history ==> x in seen) &&
    (forall x :: x !in seen ==> Count(attempts, x) == 0 == Count(losses, x)) &&
    (forall x :: x in history ==> x !in queue)
  }

  ghost predicate Bounded(jobs: Trades, initial: Balances, t: Tally) {
    Booked(jobs, initial, t.sys.db) && FreshCopies(t.sys.db, Jobs(t.sys, 0)) &&
    Tallied(t.sys.db.queue, t.sys.db.history, t.seen, t.attempts, t.losses) && forall x :: Slip(t.slips, x) == 0
  }

  /** The effect of one attempt on the queue and the history. */
  lemma AttemptRows(jobs: Trades, initial: Balances, d: Db, j: Job, fails: bool, lost: bool)
    requires Booked(jobs, initial, d) && Copy(jobs, j) && j.trade in d.queue && j.trade !in d.history
    ensures
      var after := Attempt(d, j, fails, lost);
      if !fails then after.queue == d.queue - {j.trade} && after.history == d.history + [j.trade]
      else after.history == d.history &&
           after.queue == if lost then d.queue
                          else d.queue[j.trade := Row(j.(retries := j.retries + 1), if j.retries + 1 <= MAX_RETRIES then Retrying else Failed)]
    ensures Transact(d, j, fails).1 <==> !fails
  {
    hide AllEntries, AllPostings, MoveAll, Clash, Postings, EntriesOf;
    ClashIff(jobs, d, initial, j);
  }

  lemma CompletedTallied(queue: map<string, Row>, history: seq<string>, seen: set<string>,
                         attempts: map<string, nat>, losses: map<string, nat>, x: string)
    requires Tallied(queue, history, seen, attempts, losses) && x in queue && !queue[x].status.Failed?
    ensures Tallied(queue - {x}, history + [x], seen, Tick(attempts, x), losses)
  {
    hide Tick, Count;
    forall y ensures Count(Tick(attempts, x), y) == Count(attempts, y) + if y == x then 1 else 0 { TickCounts(attempts, x, y); }
    assert RowOk(queue[x], Count(attempts, x), Count(losses, x));
  }

  lemma LostTallied(queue: map<string, Row>, history: seq<string>, seen: set<string>,
                    attempts: map<string, nat>, losses: map<string, nat>, x: string)
    requires Tallied(queue, history, seen, attempts, losses) && x in queue && !queue[x].status.Failed?
    ensures Tallied(queue, history, seen, Tick(attempts, x), Tick(losses, x))
  {
    hide Tick, Count;
    forall y ensures Count(Tick(attempts, x), y) == Count(attempts, y) + if y == x then 1 else 0 { TickCounts(attempts, x, y); }
    forall y ensures Count(Tick(losses, x), y) == Count(losses, y) + if y == x then 1 else 0 { TickCounts(losses, x, y); }
    assert RowOk(queue[x], Count(attempts, x), Count(losses, x));
  }

  lemma RetriedTallied(queue: map<string, Row>, history: seq<string>, seen: set<string>,
                       attempts: map<string, nat>, losses: map<string, nat>, x: string)
    requires Tallied(queue, history, seen, attempts, losses) && x in queue && !queue[x].status.Failed?
    ensures
      var j := queue[x].job;
      var row := Row(j.(retries := j.retries + 1), if j.retries + 1 <= MAX_RETRIES then Retrying else Failed);
      Tallied(queue[x := row], history, seen, Tick(attempts, x), losses)
  {
    hide Tick, Count;
    forall y ensures Count(Tick(attempts, x), y) == Count(attempts, y) + if y == x then 1 else 0 { TickCounts(attempts, x, y); }
    assert RowOk(queue[x], Count(attempts, x), Count(losses, x));
  }

  lemma WorkBounded(jobs: Trades, initial: Balances, t: Tally, fails: bool, lost: bool)
    requires Bounded(jobs, initial, t) && Jobs(t.sys, 0) != []
    ensures Bounded(jobs, initial, Tell(jobs, t, Work(0, fails, lost)))
  {
    hide Attempt, Transact, Booked, Tallied, Copy, Tick, Slip;
    var d, j := t.sys.db, Jobs(t.sys, 0)[0];
    HeadIsCopy(jobs, initial, t);
    NoSlip(jobs, t, fails, lost);
    AttemptRows(jobs, initial, d, j, fails, lost);
    AttemptBooked(jobs, initial, d, j, fails, lost);
    if !fails {
      CompletedTallied(d.queue, d.history, t.seen, t.attempts, t.losses, j.trade);
    } else if lost {
      LostTallied(d.queue, d.history, t.seen, t.attempts, t.losses, j.trade);
    } else {
      RetriedTallied(d.queue, d.history, t.seen, t.attempts, t.losses, j.trade);
    }
  }

  lemma HeadIsCopy(jobs: Trades, initial: Balances, t: Tally)
    requires Bounded(jobs, initial, t) && Jobs(t.sys, 0) != []
    ensures
      var j := Jobs(t.sys, 0)[0];
      Copy(jobs, j) && j.trade in t.sys.db.queue && j.trade !in t.sys.db.history && t.sys.db.queue[j.trade].job == j
  {}

  /** An attempt from the row's own copy sets nothing back. */
  lemma NoSlip(jobs: Trades, t: Tally, fails: bool, lost: bool)
    requires Jobs(t.sys, 0) != [] && forall x :: Slip(t.slips, x) == 0
    requires var j := Jobs(t.sys, 0)[0]; j.trade in t.sys.db.queue && t.sys.db.queue[j.trade].job == j
    ensures forall x :: Slip(Tell(jobs, t, Work(0, fails, lost)).slips, x) == 0
  {
    hide Transact, Attempt, Slip, Tick;
    var u, j := Tell(jobs, t, Work(0, fails, lost)), Jobs(t.sys, 0)[0];
    forall x ensures Slip(u.slips, x) == 0 { SlipCounts(t.slips, j.trade, Slip(t.slips, j.trade), x); }
  }

  lemma EnqueueTallied(queue: map<string, Row>, history: seq<string>, seen: set<string>,
                       attempts: map<string, nat>, losses: map<string, nat>, slips: map<string, int>, x: string, row: Row)
    requires Tallied(queue, history, seen, attempts, losses) && x !in seen && RowOk(row, 0, 0)
    ensures Tallied(queue[x := row], history, seen + {x}, attempts - {x}, losses - {x})
  {
    hide Count, Slip, RowOk;
    forall y ensures Count(attempts - {x}, y) == Count(attempts, y) && Count(losses - {x}, y) == Count(losses, y) {
      Forgotten(attempts, slips, x, y);
      Forgotten(losses, slips, x, y);
    }
  }

  lemma EnqueueBounded(jobs: Trades, initial: Balances, t: Tally, trade: string)
    requires TradesOk(jobs) && Bounded(jobs, initial, t) && trade !in t.seen
    ensures Bounded(jobs, initial, Tell(jobs, t, Enqueue(trade)))
  {
    hide AllEntries, AllPostings, MoveAll, JobOk, Count, Slip, Tallied;
    assert trade !in t.sys.db.queue by { TalliedSeen(t); }
    EnqueueTallied(t.sys.db.queue, t.sys.db.history, t.seen, t.attempts, t.losses, t.slips, trade, Row(jobs(trade), Pending));
    forall x ensures Slip(t.slips - {trade}, x) == 0 { Forgotten(t.attempts, t.slips, trade, x); }
  }

  lemma TalliedSeen(t: Tally)
    requires Tallied(t.sys.db.queue, t.sys.db.history, t.seen, t.attempts, t.losses)
    ensures t.sys.db.queue.Keys <= t.seen
  {}

  lemma TellBounded(jobs: Trades, initial: Balances, t: Tally, e: Event)
    requires TradesOk(jobs) && Bounded(jobs, initial, t) && Solo(t, e)
    ensures Bounded(jobs, initial, Tell(jobs, t, e))
  {
    hide Attempt, Transact, Tallied, Booked;
    match e
    case Enqueue(trade) => EnqueueBounded(jobs, initial, t, trade);
    case Work(_, fails, lost) => if Jobs(t.sys, 0) != [] { WorkBounded(jobs, initial, t, fails, lost); }
    case Fetch(_, copies) =>
    case Crash(_) =>
  }

  lemma TellTerminal(jobs: Trades, initial: Balances, t: Tally, e: Event)
    requires Bounded(jobs, initial, t) && Solo(t, e)
    ensures forall x :: Terminal(t.sys.db, x) ==> Terminal(Tell(jobs, t, e).sys.db, x)
  {
    hide Attempt, Transact, Booked;
    if e.Work? && Jobs(t.sys, 0) != [] { WorkTerminal(jobs, initial, t, e.fails, e.lost); }
  }

  lemma WorkTerminal(jobs: Trades, initial: Balances, t: Tally, fails: bool, lost: bool)
    requires Bounded(jobs, initial, t) && Jobs(t.sys, 0) != []
    ensures forall x :: Terminal(t.sys.db, x) ==> Terminal(Tell(jobs, t, Work(0, fails, lost)).sys.db, x)
  {
    hide Attempt, Transact, AllEntries, AllPostings, MoveAll, Booked;
    HeadIsCopy(jobs, initial, t);
    AttemptRows(jobs, initial, t.sys.db, Jobs(t.sys, 0)[0], fails, lost);
  }

  /** With one worker, whatever fails and however often it crashes: a trade is attempted at most one
      more time than the retry limit, plus once for each status update that was lost; a trade that is
      given up was attempted exactly that often, hence within the limit exactly when no update was lost;
      and a trade that is completed or given up stays so. */
  lemma {:induction false} AttemptsBounded(jobs: Trades, initial: Balances, t: Tally, events: seq<Event>)
    requires TradesOk(jobs) && Bounded(jobs, initial, t) && AllSolo(jobs, t, events)
    ensures
      var after := TellAll(jobs, t, events);
      Bounded(jobs, initial, after) &&
      (forall x :: Count(after.attempts, x) <= MAX_RETRIES + 1 + Count(after.losses, x)) &&
      (forall x :: x in after.sys.db.queue && after.sys.db.queue[x].status.Failed? ==>
        Count(after.attempts, x) == MAX_RETRIES + 1 + Count(after.losses, x) &&
        (Count(after.attempts, x) <= MAX_RETRIES + 1 <==> Count(after.losses, x) == 0)) &&
      (forall x :: Terminal(t.sys.db, x) ==> Terminal(after.sys.db, x))
    decreases |events|
  {
    hide Tell, Solo, Terminal, Booked, FreshCopies;
    if events != [] {
      TellBounded(jobs, initial, t, events[0]);
      TellTerminal(jobs, initial, t, events[0]);
      AttemptsBounded(jobs, initial, Tell(jobs, t, events[0]), events[1..]);
    }
  }

  // ---------------------------------------------------------------------------
  // The engine
  // ---------------------------------------------------------------------------

  /** What goes wrong in one attempt: the first failing statement, if any, and a lost status update. */
  datatype Fault = Fault(failAt: nat, lost: bool)

  /** Statements of a settlement transaction: movements, ledger inserts, two cleanups and the commit. */
  function Statements(j: Job): nat { 2 * |Postings(j)| + 3 }

  function AttemptAll(d: Db, jobs: seq<Job>, faults: seq<Fault>): Db
    requires |faults| == |jobs|
    decreases |jobs|
  {
    if jobs == [] then d
    else AttemptAll(Attempt(d, jobs[0], faults[0].failAt < Statements(jobs[0]), faults[0].lost), jobs[1..], faults[1..])
  }

  /** How many jobs of a pass were completed, and how many given up; a job to be retried is neither. */
  function Outcomes(d: Db, jobs: seq<Job>, faults: seq<Fault>): (nat, nat)
    requires |faults| == |jobs|
    decreases |jobs|
  {
    if jobs == [] then (0, 0)
    else
      var j, fails := jobs[0], faults[0].failAt < Statements(jobs[0]);
      var rest := Outcomes(Attempt(d, j, fails, faults[0].lost), jobs[1..], faults[1..]);
      if Transact(d, j, fails).1 then (rest.0 + 1, rest.1)
      else if j.retries >= MAX_RETRIES then (rest.0, rest.1 + 1)
      else rest
  }

  /** The attempts of a worker on what it holds. */
  function Works(w: nat, jobs: seq<Job>, faults: seq<Fault>): seq<Event>
    requires |faults| == |jobs|
    decreases |jobs|
  {
    if jobs == [] then []
    else [Work(w, faults[0].failAt < Statements(jobs[0]), faults[0].lost)] + Works(w, jobs[1..], faults[1..])
  }

  /** One pass over the queue is a run of that worker. */
  lemma {:induction false} PassIsRun(jobs: Trades, s: System, w: nat, faults: seq<Fault>)
    requires |faults| == |Jobs(s, w)|
    ensures Run(jobs, s, Works(w, Jobs(s, w), faults)).db == AttemptAll(s.db, Jobs(s, w), faults)
    decreases |faults|
  {
    hide Attempt, Statements;
    var held := Jobs(s, w);
    if held != [] {
      var first := Work(w, faults[0].failAt < Statements(held[0]), faults[0].lost);
      var rest := Works(w, held[1..], faults[1..]);
      assert Works(w, held, faults)[0] == first && Works(w, held, faults)[1..] == rest;
      assert Jobs(Step(jobs, s, first), w) == held[1..];
      PassIsRun(jobs, Step(jobs, s, first), w, faults[1..]);
    }
  }

  class SettlementEngine {
    var db: Db
    var queue: seq<Job>

    constructor (db: Db)
      ensures this.db == db && queue == []
    {
      this.db, queue := db, [];
    }

    /** Enter a job in memory and in the durable queue; the insert may be lost. */
    method QueueSettlement(j: Job, lost: bool)
      modifies this
      ensures queue == old(queue) + [j]
      ensures db == if lost then old(db) else old(db).(queue :=
        old(db).queue[j.trade := if j.trade in old(db).queue then old(db).queue[j.trade].(status := Pending) else Row(j, Pending)])
    {
      queue := queue + [j];
      if !lost {
        var row := if j.trade in db.queue then db.queue[j.trade].(status := Pending) else Row(j, Pending);
        db := db.(queue := db.queue[j.trade := row]);
      }
    }

    /** The transaction, statement by statement on a private view, published by the commit alone. */
    method ExecuteSettlementTransaction(j: Job, failAt: nat) returns (ok: bool)
      modifies this`db
      ensures (db, ok) == Transact(old(db), j, failAt < Statements(j))
    {
      hide Move, EntryId, Postings, TxId, HasId;
      var ps := Postings(j);
      var balances, ledger := db.balances, db.ledger;
      var i := 0;
      assert ps[0..] == ps;
      while i < |ps|
        invariant 0 <= i <= |ps| && i <= failAt && db == old(db)
        invariant MoveAll(db.balances, ps) == MoveAll(balances, ps[i..])
      {
        if i == failAt { return false; }
        assert ps[i..][0] == ps[i] && ps[i..][1..] == ps[i + 1..];
        balances := Move(balances, ps[i]);
        i := i + 1;
      }
      var inserted;
      ledger, inserted := InsertAll(db.ledger, j, failAt - |ps|);
      if !inserted || failAt < Statements(j) { return false; }
      db := Db(balances, ledger, db.queue - {j.trade}, if j.trade in db.history then db.history else db.history + [j.trade]);
      ok := true;
    }

    /** Write the ledger entries one by one; a duplicate identifier or a failing statement stops. */
    method InsertAll(start: seq<Entry>, j: Job, failAt: int) returns (ledger: seq<Entry>, ok: bool)
      requires failAt >= 0
      ensures ok <==> failAt >= |Postings(j)| && !Clash(start, j)
      ensures ok ==> ledger == start + EntriesOf(j.trade, Postings(j))
    {
      hide EntryId, Postings, TxId, HasId, EntriesOf, EntryOf;
      var ps := Postings(j);
      ghost var es := EntriesOf(j.trade, ps);
      ledger := start;
      var i := 0;
      while i < |ps|
        invariant 0 <= i <= |ps| && i <= failAt && ledger == start + es[..i]
        invariant forall k :: 0 <= k < i ==> !HasId(start, EntryId(ps[k].leg, j.trade))
      {
        var id := EntryId(ps[i].leg, j.trade);
        if i == failAt { return ledger, false; }
        OwnInsert(start, j, i);
        if HasId(ledger, id) { return ledger, false; }
        ledger := ledger + [EntryOf(j.trade, ps[i])];
        assert es[..i + 1] == es[..i] + [es[i]];
        i := i + 1;
      }
      assert es[..i] == es;
      ok := true;
    }

    /** One pass: the queued jobs as the database returned them, or, when it returned none, the
        memory queue; each is attempted once. */
    method ProcessQueue(fetched: seq<Job>, faults: seq<Fault>) returns (succeeded: nat, failed: nat)
      requires |faults| == |if fetched == [] then queue else fetched|
      modifies this
      ensures db == AttemptAll(old(db), if fetched == [] then old(queue) else fetched, faults)
      ensures queue == []
      ensures (succeeded, failed) == Outcomes(old(db), if fetched == [] then old(queue) else fetched, faults)
    {
      hide Statements, Transact;
      var active := if fetched == [] then queue else fetched;
      queue := [];
      succeeded, failed := 0, 0;
      assert active[0..] == active && faults[0..] == faults;
      for i := 0 to |active|
        invariant AttemptAll(old(db), active, faults) == AttemptAll(db, active[i..], faults[i..])
        invariant queue == [] &&
          var rest := Outcomes(db, active[i..], faults[i..]);
          (succeeded + rest.0, failed + rest.1) == Outcomes(old(db), active, faults)
      {
        assert active[i..][0] == active[i] && active[i..][1..] == active[i + 1..];
        assert faults[i..][0] == faults[i] && faults[i..][1..] == faults[i + 1..];
        var j := active[i];
        ghost var before := db;
        var ok := ExecuteSettlementTransaction(j, faults[i].failAt);
        if ok {
          succeeded := succeeded + 1;
        } else {
          TransactKeeps(before, j, faults[i].failAt < Statements(j));
          if j.retries >= MAX_RETRIES { failed := failed + 1; }
          if !faults[i].lost && j.trade in db.queue {
            var retries := j.retries + 1;
            var row := Row(j.(retries := retries), if retries <= MAX_RETRIES then Retrying else Failed);
            db := db.(queue := db.queue[j.trade := row]);
          }
        }
      }
    }
  }

  /** A job's own entries never stand in each other's way. */
  lemma OwnInsert(start: seq<Entry>, j: Job, i: nat)
    requires i < |Postings(j)|
    ensures
      var id := EntryId(Postings(j)[i].leg, j.trade);
      HasId(start + EntriesOf(j.trade, Postings(j))[..i], id) <==> HasId(start, id)
  {
    hide EntryId, Postings, TxId;
    var id := EntryId(Postings(j)[i].leg, j.trade);
    var es := EntriesOf(j.trade, Postings(j));
    var all := start + es[..i];
    if HasId(start, id) {
      var k :| 0 <= k < |start| && start[k].id == id;
      assert all[k].id == id;
    }
    if HasId(all, id) {
      var k :| 0 <= k < |all| && all[k].id == id;
      if k >= |start| {
        var n := k - |start|;
        assert all[k] == es[n] == EntryOf(j.trade, Postings(j)[n]);
        EntryIdInjective(Postings(j)[n].leg, j.trade, Postings(j)[i].leg, j.trade);
        LegsDistinct(j);
        assert false;
      } else {
        assert start[k].id == id;
      }
    }
  }

  /** A trade fails three times and is retried; the fourth failure gives it up. */
  lemma FourthFailureGivesUp(d: Db, j: Job)
    requires j.trade in d.queue && j.retries == 0
    ensures
      var one := Attempt(d, j, true, false);
      var two := Attempt(one, one.queue[j.trade].job, true, false);
      var three := Attempt(two, two.queue[j.trade].job, true, false);
      var four := Attempt(three, three.queue[j.trade].job, true, false);
      one.queue[j.trade].status == two.queue[j.trade].status == three.queue[j.trade].status == Retrying &&
      four == d.(queue := d.queue[j.trade := Row(j.(retries := 4), Failed)])
  {}
}
