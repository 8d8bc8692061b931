/** Deposits: the block scanner records transfers to tracked addresses, and the confirmation pass
    credits them.  Several workers may run both, crash anywhere, and lose single statements. */
module Deposits {

  import opened Wrappers

  /** A transfer on the chain to a tracked address; `hash` names its transaction. */
  datatype Transfer = Transfer(hash: string, user: string, amount: real)

  datatype Status = Pending | Confirming | Confirmed

  /** A row of the deposit table, whose primary key is derived from the transaction hash. */
  datatype Deposit = Deposit(user: string, amount: real, confirmations: int, status: Status)

  /** A ledger credit; its identifier is derived from the deposit. */
  datatype Credit = Credit(hash: string, user: string, amount: real)

  type Rows = map<string, Deposit>

  datatype Db = Db(deposits: Rows, ledger: seq<Credit>, balances: map<string, real>, lastScanned: Option<int>)

  const THRESHOLD := 12

  const WINDOW := 50

  function Balance(d: Db, user: string): real { if user in d.balances then d.balances[user] else 0.0 }

  // ---------------------------------------------------------------------------
  // Scanning
  // ---------------------------------------------------------------------------

  /** One transfer of a scanned block; an insert that fails is only logged. */
  function Detect(rows: Rows, t: Transfer, failed: set<string>): Rows {
    if t.hash in rows || t.amount <= 0.0 || t.hash in failed then rows
    else rows[t.hash := Deposit(t.user, t.amount, 0, Pending)]
  }

  function DetectAll(rows: Rows, ts: seq<Transfer>, failed: set<string>): Rows
    decreases |ts|
  {
    if ts == [] then rows else DetectAll(Detect(rows, ts[0], failed), ts[1..], failed)
  }

  /** Where a scan starts when nothing has been scanned: just behind the chain's tip. */
  function StartOf(d: Db, latest: nat): int {
    if d.lastScanned.Some? then d.lastScanned.value else if latest == 0 then 0 else latest - 1
  }

  function Blocks(first: int, last: int): (r: set<int>)
    ensures forall b :: b in r <==> first <= b <= last
    decreases last - first
  {
    if first > last then {} else Blocks(first, last - 1) + {last}
  }

  function LastOf(next: int, latest: int): int { if latest - next > WINDOW then next + WINDOW else latest }

  /** What the query for tracked addresses returns. */
  datatype Addresses = Unreadable | NoneTracked | Tracked

  /** The scanner state after the start of a scan: initialised if it is missing and the insert does not
      fail; moved past the window when no address is tracked and the update is not lost. */
  function StartScanner(d: Db, latest: nat, addresses: Addresses, initFails: bool, updateLost: bool): Db {
    var start := StartOf(d, latest);
    if d.lastScanned.None? && initFails then d
    else if start + 1 <= latest && addresses.NoneTracked? && !updateLost then
      d.(lastScanned := Some(LastOf(start + 1, latest)))
    else d.(lastScanned := Some(start))
  }

  // ---------------------------------------------------------------------------
  // Confirming
  // ---------------------------------------------------------------------------

  predicate Credited(ledger: seq<Credit>, hash: string) {
    exists i :: 0 <= i < |ledger| && ledger[i].hash == hash
  }

  /** The crediting transaction: balance, ledger entry and status together, or nothing. */
  function Confirm(d: Db, hash: string, copy: Deposit, confirmations: int, fails: bool): Db {
    if fails || Credited(d.ledger, hash) then d
    else
      d.(balances := d.balances[copy.user := Balance(d, copy.user) + copy.amount],
         ledger := d.ledger + [Credit(hash, copy.user, copy.amount)],
         deposits := if hash in d.deposits
                     then d.deposits[hash := d.deposits[hash].(confirmations := confirmations, status := Confirmed)]
                     else d.deposits)
  }

  function Postpone(d: Db, hash: string, confirmations: int, fails: bool): Db {
    if fails || hash !in d.deposits then d
    else d.(deposits := d.deposits[hash := d.deposits[hash].(confirmations := confirmations, status := Confirming)])
  }

  function Check(d: Db, hash: string, copy: Deposit, confirmations: int, fails: bool): Db {
    if confirmations >= THRESHOLD then Confirm(d, hash, copy, confirmations, fails)
    else Postpone(d, hash, confirmations, fails)
  }

  // ---------------------------------------------------------------------------
  // Runs
  // ---------------------------------------------------------------------------

  datatype Listed = Listed(hash: string, copy: Deposit)

  /** `scanned` are the blocks looked at, `clean` those looked at without a failing insert, and
      `passed` those skipped because no address was tracked. */
  datatype System = System(
    db: Db, listed: map<nat, seq<Listed>>, scans: map<nat, (int, int)>,
    scanned: set<int>, clean: set<int>, passed: set<int>)

  /** What stops the scan of a block: nothing, the fetch, or the update of the scanner state. */
  datatype Trouble = NoTrouble | NoBlock | NoUpdate

  datatype Event =
    | StartScan(worker: nat, latest: nat, addresses: Addresses, initFails: bool, updateLost: bool)
    | ScanBlock(worker: nat, failed: set<string>, trouble: Trouble)
    | List(worker: nat, hashes: seq<string>)
    | CheckNext(worker: nat, confirmations: int, fails: bool)
    | Crash(worker: nat)

  type Chain = int -> seq<Transfer>

  function Held(s: System, w: nat): seq<Listed> { if w in s.listed then s.listed[w] else [] }

  /** The deposits that are listed: those still pending or confirming. */
  function Copies(rows: Rows, hashes: seq<string>): seq<Listed> {
    if hashes == [] then []
    else
      (if hashes[0] in rows && !rows[hashes[0]].status.Confirmed? then [Listed(hashes[0], rows[hashes[0]])] else []) +
      Copies(rows, hashes[1..])
  }

  function Step(chain: Chain, s: System, e: Event): System {
    match e
    case StartScan(w, latest, addresses, initFails, updateLost) =>
      var d := StartScanner(s.db, latest, addresses, initFails, updateLost);
      var next := StartOf(s.db, latest) + 1;
      if d.lastScanned.None? || next > latest || addresses.Unreadable? then s.(db := d)
      else if addresses.NoneTracked? then
        s.(db := d, passed := if updateLost then s.passed else s.passed + Blocks(next, LastOf(next, latest)))
      else s.(db := d, scans := s.scans[w := (next, LastOf(next, latest))])
    case ScanBlock(w, failed, trouble) =>
      if w !in s.scans || s.scans[w].0 > s.scans[w].1 || trouble.NoBlock? then s.(scans := s.scans - {w})
      else
        var (b, end) := s.scans[w];
        var t := s.(scanned := s.scanned + {b}, clean := if failed == {} then s.clean + {b} else s.clean);
        var d := s.db.(deposits := DetectAll(s.db.deposits, chain(b), failed));
        if trouble.NoUpdate? then t.(db := d, scans := s.scans - {w})
        else t.(db := d.(lastScanned := Some(b)), scans := s.scans[w := (b + 1, end)])
    case List(w, hashes) => s.(listed := s.listed[w := Copies(s.db.deposits, hashes)])
    case CheckNext(w, confirmations, fails) =>
      if Held(s, w) == [] then s
      else
        var l := Held(s, w)[0];
        s.(db := Check(s.db, l.hash, l.copy, confirmations, fails), listed := s.listed[w := Held(s, w)[1..]])
    case Crash(w) => s.(listed := s.listed - {w}, scans := s.scans - {w})
  }

  function Run(chain: Chain, s: System, events: seq<Event>): System
    decreases |events|
  {
    if events == [] then s else Run(chain, Step(chain, s, events[0]), events[1..])
  }

  // ---------------------------------------------------------------------------
  // Credits
  // ---------------------------------------------------------------------------

  function CreditSum(ledger: seq<Credit>, user: string): real {
    if ledger == [] then 0.0
    else CreditSum(ledger[..|ledger| - 1], user) + if ledger[|ledger| - 1].user == user then ledger[|ledger| - 1].amount else 0.0
  }

  predicate OneCredit(ledger: seq<Credit>) { forall i, j :: 0 <= i < j < |ledger| ==> ledger[i].hash != ledger[j].hash }

  /** Every credit is for a recorded deposit, in its amount, to its user. */
  predicate CreditsOk(d: Db) {
    OneCredit(d.ledger) &&
    (forall i :: 0 <= i < |d.ledger| ==>
      d.ledger[i].hash in d.deposits && d.deposits[d.ledger[i].hash].user == d.ledger[i].user &&
      d.deposits[d.ledger[i].hash].amount == d.ledger[i].amount) &&
    (forall h :: h in d.deposits && d.deposits[h].status.Confirmed? ==> Credited(d.ledger, h)) &&
    forall h :: h in d.deposits ==> d.deposits[h].amount > 0.0
  }

  ghost predicate BalancesOk(initial: map<string, real>, d: Db) {
    forall u :: Balance(d, u) == (if u in initial then initial[u] else 0.0) + CreditSum(d.ledger, u)
  }

  predicate CopyOk(d: Db, l: Listed) {
    l.hash in d.deposits && d.deposits[l.hash].user == l.copy.user && d.deposits[l.hash].amount == l.copy.amount
  }

  predicate CopiesOk(d: Db, ls: seq<Listed>) { forall i :: 0 <= i < |ls| ==> CopyOk(d, ls[i]) }

  ghost predicate Sound(initial: map<string, real>, s: System) {
    CreditsOk(s.db) && BalancesOk(initial, s.db) && forall w :: w in s.listed ==> CopiesOk(s.db, s.listed[w])
  }

  /** Rows are never removed and keep their user and amount. */
  predicate Grows(rows: Rows, rows': Rows) {
    forall h :: h in rows ==> h in rows' && rows'[h].user == rows[h].user && rows'[h].amount == rows[h].amount
  }

  lemma CopiesGrow(d: Db, d': Db, ls: seq<Listed>)
    requires Grows(d.deposits, d'.deposits) && CopiesOk(d, ls)
    ensures CopiesOk(d', ls)
  {
    forall i | 0 <= i < |ls| ensures CopyOk(d', ls[i]) { assert CopyOk(d, ls[i]); }
  }

  lemma {:induction false} DetectKeeps(rows: Rows, ts: seq<Transfer>, failed: set<string>)
    requires forall h :: h in rows ==> rows[h].amount > 0.0
    ensures
      var after := DetectAll(rows, ts, failed);
      (forall h :: h in rows ==> h in after && after[h] == rows[h]) &&
      (forall h :: h in after && h !in rows ==> after[h].status.Pending?) &&
      (forall h :: h in after ==> after[h].amount > 0.0)
    decreases |ts|
  {
    if ts != [] { DetectKeeps(Detect(rows, ts[0], failed), ts[1..], failed); }
  }

  lemma CreditedPush(ledger: seq<Credit>, c: Credit, hash: string)
    ensures Credited(ledger + [c], hash) <==> Credited(ledger, hash) || c.hash == hash
  {
    if Credited(ledger, hash) {
      var i :| 0 <= i < |ledger| && ledger[i].hash == hash;
      assert (ledger + [c])[i].hash == hash;
    }
    assert (ledger + [c])[|ledger|] == c;
  }

  lemma SumPush(ledger: seq<Credit>, c: Credit, user: string)
    ensures CreditSum(ledger + [c], user) == CreditSum(ledger, user) + if c.user == user then c.amount else 0.0
  {
    assert (ledger + [c])[..|ledger|] == ledger;
  }

  /** Crediting a deposit that has no credit yet keeps one credit per deposit and the sums. */
  lemma ConfirmKeeps(initial: map<string, real>, d: Db, l: Listed, confirmations: int, fails: bool)
    requires CreditsOk(d) && BalancesOk(initial, d) && CopyOk(d, l)
    ensures
      var after := Confirm(d, l.hash, l.copy, confirmations, fails);
      CreditsOk(after) && BalancesOk(initial, after) && Grows(d.deposits, after.deposits)
  {
    hide CreditSum;
    if !fails && !Credited(d.ledger, l.hash) {
      var c := Credit(l.hash, l.copy.user, l.copy.amount);
      var after := Confirm(d, l.hash, l.copy, confirmations, fails);
      forall h ensures Credited(after.ledger, h) <==> Credited(d.ledger, h) || h == l.hash { CreditedPush(d.ledger, c, h); }
      forall u ensures Balance(after, u) == (if u in initial then initial[u] else 0.0) + CreditSum(after.ledger, u) {
        SumPush(d.ledger, c, u);
        assert Balance(d, u) == (if u in initial then initial[u] else 0.0) + CreditSum(d.ledger, u);
      }
    }
  }

  lemma PostponeKeeps(initial: map<string, real>, d: Db, l: Listed, confirmations: int, fails: bool)
    requires CreditsOk(d) && BalancesOk(initial, d)
    ensures
      var after := Postpone(d, l.hash, confirmations, fails);
      CreditsOk(after) && BalancesOk(initial, after) && Grows(d.deposits, after.deposits)
  {
    hide CreditSum, Credited;
    var after := Postpone(d, l.hash, confirmations, fails);
    forall u ensures Balance(after, u) == (if u in initial then initial[u] else 0.0) + CreditSum(after.ledger, u) {
      assert Balance(d, u) == (if u in initial then initial[u] else 0.0) + CreditSum(d.ledger, u);
    }
  }

  lemma CheckKeeps(initial: map<string, real>, d: Db, l: Listed, confirmations: int, fails: bool)
    requires CreditsOk(d) && BalancesOk(initial, d) && CopyOk(d, l)
    ensures
      var after := Check(d, l.hash, l.copy, confirmations, fails);
      CreditsOk(after) && BalancesOk(initial, after) && Grows(d.deposits, after.deposits)
  {
    hide CreditsOk, BalancesOk, Grows, Confirm, Postpone;
    ConfirmKeeps(initial, d, l, confirmations, fails);
    PostponeKeeps(initial, d, l, confirmations, fails);
  }

  lemma {:induction false} CopiesAreRows(d: Db, hashes: seq<string>)
    ensures CopiesOk(d, Copies(d.deposits, hashes))
    decreases |hashes|
  {
    if hashes != [] { CopiesAreRows(d, hashes[1..]); }
  }

  lemma ScanKeeps(initial: map<string, real>, d: Db, ts: seq<Transfer>, failed: set<string>, last: Option<int>)
    requires CreditsOk(d) && BalancesOk(initial, d)
    ensures
      var after := d.(deposits := DetectAll(d.deposits, ts, failed), lastScanned := last);
      CreditsOk(after) && BalancesOk(initial, after) && Grows(d.deposits, after.deposits)
  {
    hide CreditSum, Credited, DetectAll;
    DetectKeeps(d.deposits, ts, failed);
    var after := d.(deposits := DetectAll(d.deposits, ts, failed), lastScanned := last);
    forall u ensures Balance(after, u) == Balance(d, u) {}
  }

  lemma LastKeeps(initial: map<string, real>, d: Db, last: Option<int>)
    requires CreditsOk(d) && BalancesOk(initial, d)
    ensures CreditsOk(d.(lastScanned := last)) && BalancesOk(initial, d.(lastScanned := last))
  {
    hide CreditSum, Credited;
    forall u ensures Balance(d.(lastScanned := last), u) == Balance(d, u) {}
  }

  lemma StepKeeps(chain: Chain, initial: map<string, real>, s: System, e: Event)
    requires Sound(initial, s)
    ensures Sound(initial, Step(chain, s, e))
  {
    hide CreditsOk, BalancesOk, DetectAll, Check, Grows, CopiesOk, Copies;
    var t := Step(chain, s, e);
    match e {
      case StartScan(_, _, _, _, _) =>
        LastKeeps(initial, s.db, t.db.lastScanned);
        SameRows(s.db);
        forall x | x in t.listed ensures CopiesOk(t.db, t.listed[x]) { CopiesGrow(s.db, t.db, s.listed[x]); }
      case ScanBlock(w, failed, trouble) =>
        SameRows(s.db);
        if w in s.scans { ScanKeeps(initial, s.db, chain(s.scans[w].0), failed, t.db.lastScanned); }
        forall x | x in t.listed ensures CopiesOk(t.db, t.listed[x]) { CopiesGrow(s.db, t.db, s.listed[x]); }
      case List(w, hashes) => CopiesAreRows(s.db, hashes);
      case CheckNext(w, confirmations, fails) =>
        if Held(s, w) != [] {
          HeadOk(s.db, Held(s, w));
          CheckKeeps(initial, s.db, Held(s, w)[0], confirmations, fails);
          forall x | x in t.listed ensures CopiesOk(t.db, t.listed[x]) {
            CopiesGrow(s.db, t.db, if x == w then Held(s, w)[1..] else s.listed[x]);
          }
        }
      case Crash(_) =>
    }
  }

  lemma SameRows(d: Db)
    ensures Grows(d.deposits, d.deposits)
  {}

  lemma HeadOk(d: Db, ls: seq<Listed>)
    requires ls != [] && CopiesOk(d, ls)
    ensures CopyOk(d, ls[0]) && CopiesOk(d, ls[1..])
  {}

  /** Under any interleaving of workers, crashes and lost statements: one row per transaction hash, at
      most one credit per deposit, to its user and in its amount; a confirmed deposit is credited; and
      every balance is its initial value plus the deposit credits of the ledger. */
  lemma {:induction false} CreditedOnce(chain: Chain, initial: map<string, real>, s: System, events: seq<Event>)
    requires Sound(initial, s)
    ensures Sound(initial, Run(chain, s, events))
    decreases |events|
  {
    hide Sound, Step;
    if events != [] {
      StepKeeps(chain, initial, s, events[0]);
      CreditedOnce(chain, initial, Step(chain, s, events[0]), events[1..]);
    }
  }

  // ---------------------------------------------------------------------------
  // The scanner leaves no gap
  // ---------------------------------------------------------------------------

  predicate Covered(s: System, first: int, below: int) {
    forall b :: first < b < below ==> b in s.scanned || b in s.passed
  }

  /** Every block behind the scanner state, and behind every running scan, has been dealt with; and the
      transfers of cleanly scanned blocks are recorded. */
  predicate Gapless(chain: Chain, s: System, first: int) {
    s.db.lastScanned.Some? && Covered(s, first, s.db.lastScanned.value + 1) &&
    (forall w :: w in s.scans ==> Covered(s, first, s.scans[w].0)) &&
    forall b :: b in s.clean ==> Recorded(s.db.deposits, chain(b))
  }

  predicate Recorded(rows: Rows, ts: seq<Transfer>) {
    forall i :: 0 <= i < |ts| && ts[i].amount > 0.0 ==> ts[i].hash in rows
  }

  lemma {:induction false} DetectRecords(rows: Rows, ts: seq<Transfer>)
    ensures Recorded(DetectAll(rows, ts, {}), ts)
    decreases |ts|
  {
    if ts != [] {
      DetectRecords(Detect(rows, ts[0], {}), ts[1..]);
      DetectAdds(Detect(rows, ts[0], {}), ts[1..], {});
      forall i | 0 <= i < |ts| && ts[i].amount > 0.0 ensures ts[i].hash in DetectAll(rows, ts, {}) {
        if i > 0 { assert ts[1..][i - 1] == ts[i]; }
      }
    }
  }

  lemma {:induction false} DetectAdds(rows: Rows, ts: seq<Transfer>, failed: set<string>)
    ensures rows.Keys <= DetectAll(rows, ts, failed).Keys
    decreases |ts|
  {
    if ts != [] { DetectAdds(Detect(rows, ts[0], failed), ts[1..], failed); }
  }

  lemma RowsGrow(rows: Rows, rows': Rows, ts: seq<Transfer>)
    requires Recorded(rows, ts) && rows.Keys <= rows'.Keys
    ensures Recorded(rows', ts)
  {}

  lemma CoverMore(s: System, t: System, first: int, below: int)
    requires s.scanned <= t.scanned && s.passed <= t.passed && Covered(s, first, below)
    ensures Covered(t, first, below)
  {}

  lemma StepRows(chain: Chain, s: System, e: Event)
    ensures s.db.deposits.Keys <= Step(chain, s, e).db.deposits.Keys
    ensures s.scanned <= Step(chain, s, e).scanned && s.passed <= Step(chain, s, e).passed
  {
    hide DetectAll, Credited;
    if e.ScanBlock? && e.worker in s.scans { DetectAdds(s.db.deposits, chain(s.scans[e.worker].0), e.failed); }
  }

  lemma StepGapless(chain: Chain, s: System, e: Event, first: int)
    requires Gapless(chain, s, first)
    ensures Gapless(chain, Step(chain, s, e), first)
  {
    hide DetectAll, Check, Recorded, Covered, Copies;
    var t := Step(chain, s, e);
    StepRows(chain, s, e);
    forall b | b in s.clean ensures Recorded(t.db.deposits, chain(b)) { RowsGrow(s.db.deposits, t.db.deposits, chain(b)); }
    forall w | w in s.scans ensures Covered(t, first, s.scans[w].0) { CoverMore(s, t, first, s.scans[w].0); }
    CoverMore(s, t, first, s.db.lastScanned.value + 1);
    match e {
      case StartScan(_, latest, _, _, _) => CoverRange(s, t, first, latest);
      case ScanBlock(w, failed, trouble) =>
        if w in s.scans {
          var b := s.scans[w].0;
          CoverOne(s, t, first, b);
          if failed == {} { DetectRecords(s.db.deposits, chain(b)); }
        }
      case CheckNext(w, confirmations, fails) =>
        if Held(s, w) != [] { CheckScanner(s.db, Held(s, w)[0], confirmations, fails); }
      case _ =>
    }
  }

  lemma CheckScanner(d: Db, l: Listed, confirmations: int, fails: bool)
    ensures Check(d, l.hash, l.copy, confirmations, fails).lastScanned == d.lastScanned
  {}

  lemma CoverOne(s: System, t: System, first: int, b: int)
    requires s.scanned <= t.scanned && s.passed <= t.passed && Covered(s, first, b)
    ensures b in t.scanned ==> Covered(t, first, b + 1)
  {}

  lemma CoverRange(s: System, t: System, first: int, latest: nat)
    requires s.scanned <= t.scanned && s.passed <= t.passed && s.db.lastScanned.Some?
    requires Covered(s, first, s.db.lastScanned.value + 1)
    ensures
      var next := s.db.lastScanned.value + 1;
      Blocks(next, LastOf(next, latest)) <= t.passed ==> Covered(t, first, LastOf(next, latest) + 1)
  {}

  /** However many workers scan, stop and start again: no block behind the scanner state has been left
      out, and every transfer of a block scanned without a failing insert is on record. */
  lemma {:induction false} NoBlockLeftOut(chain: Chain, s: System, events: seq<Event>, first: int)
    requires Gapless(chain, s, first)
    ensures Gapless(chain, Run(chain, s, events), first)
    decreases |events|
  {
    hide Gapless, Step;
    if events != [] {
      StepGapless(chain, s, events[0], first);
      NoBlockLeftOut(chain, Step(chain, s, events[0]), events[1..], first);
    }
  }

  // ---------------------------------------------------------------------------
  // When rows and credits agree
  // ---------------------------------------------------------------------------

  /** Every deposit is credited exactly when its row is confirmed. */
  predicate RowsAgree(d: Db) {
    forall h :: h in d.deposits ==> (Credited(d.ledger, h) <==> d.deposits[h].status.Confirmed?)
  }

  /** The guard the confirmation pass does not have: a credited deposit, listed earlier, is put back
      because this worker reads too few confirmations. */
  predicate Reopens(s: System, e: Event) {
    e.CheckNext? && Held(s, e.worker) != [] && e.confirmations < THRESHOLD && !e.fails &&
    Credited(s.db.ledger, Held(s, e.worker)[0].hash)
  }

  /** Does some event of a run put a credited deposit back? */
  predicate SomeReopens(chain: Chain, s: System, events: seq<Event>)
    decreases |events|
  {
    events != [] && (Reopens(s, events[0]) || SomeReopens(chain, Step(chain, s, events[0]), events[1..]))
  }

  /** Credited, but not confirmed. */
  predicate Stuck(d: Db, h: string) {
    h in d.deposits && Credited(d.ledger, h) && !d.deposits[h].status.Confirmed?
  }

  lemma {:induction false} DetectPending(rows: Rows, ts: seq<Transfer>, failed: set<string>)
    ensures
      var after := DetectAll(rows, ts, failed);
      (forall h :: h in rows ==> h in after && after[h] == rows[h]) &&
      forall h :: h in after && h !in rows ==> after[h].status.Pending?
    decreases |ts|
  {
    if ts != [] { DetectPending(Detect(rows, ts[0], failed), ts[1..], failed); }
  }

  lemma NotRecordedNotCredited(d: Db, h: string)
    requires CreditsOk(d) && h !in d.deposits
    ensures !Credited(d.ledger, h)
  {}

  lemma CheckAgrees(d: Db, l: Listed, confirmations: int, fails: bool)
    requires CreditsOk(d) && RowsAgree(d) && CopyOk(d, l)
    ensures RowsAgree(Check(d, l.hash, l.copy, confirmations, fails)) <==>
      !(confirmations < THRESHOLD && !fails && Credited(d.ledger, l.hash))
  {
    hide Credited;
    var after := Check(d, l.hash, l.copy, confirmations, fails);
    var c := Credit(l.hash, l.copy.user, l.copy.amount);
    forall h ensures Credited(d.ledger + [c], h) <==> Credited(d.ledger, h) || h == l.hash { CreditedPush(d.ledger, c, h); }
    if confirmations < THRESHOLD && !fails && Credited(d.ledger, l.hash) {
      assert !after.deposits[l.hash].status.Confirmed? && after.ledger == d.ledger;
    }
  }

  lemma ScanAgrees(d: Db, ts: seq<Transfer>, failed: set<string>, last: Option<int>)
    requires CreditsOk(d) && RowsAgree(d)
    ensures RowsAgree(d.(deposits := DetectAll(d.deposits, ts, failed), lastScanned := last))
  {
    hide Credited, DetectAll, CreditsOk;
    DetectPending(d.deposits, ts, failed);
    forall h | h !in d.deposits ensures !Credited(d.ledger, h) { NotRecordedNotCredited(d, h); }
  }

  /** One step of any worker keeps rows and credits in agreement exactly when it does not put a
      credited deposit back. */
  lemma StepAgreesIff(chain: Chain, initial: map<string, real>, s: System, e: Event)
    requires Sound(initial, s) && RowsAgree(s.db)
    ensures RowsAgree(Step(chain, s, e).db) <==> !Reopens(s, e)
  {
    hide Credited, DetectAll, CreditsOk, BalancesOk, Copies, Check, CopiesOk, RowsAgree;
    match e {
      case StartScan(_, _, _, _, _) => LastAgrees(s.db, Step(chain, s, e).db.lastScanned);
      case ScanBlock(w, failed, _) =>
        if w in s.scans { ScanAgrees(s.db, chain(s.scans[w].0), failed, Step(chain, s, e).db.lastScanned); }
      case CheckNext(w, confirmations, fails) =>
        if Held(s, w) != [] {
          HeadOk(s.db, Held(s, w));
          CheckAgrees(s.db, Held(s, w)[0], confirmations, fails);
        }
      case _ =>
    }
  }

  lemma LastAgrees(d: Db, last: Option<int>)
    requires RowsAgree(d)
    ensures RowsAgree(d.(lastScanned := last))
  {}

  /** A credited deposit whose row was put back stays so: it is never credited, hence never confirmed,
      again. */
  lemma StuckStays(chain: Chain, s: System, e: Event, h: string)
    requires Stuck(s.db, h)
    ensures Stuck(Step(chain, s, e).db, h)
  {
    hide Credited, DetectAll, Copies;
    if e.ScanBlock? && e.worker in s.scans {
      DetectPending(s.db.deposits, chain(s.scans[e.worker].0), e.failed);
    }
    if e.CheckNext? && Held(s, e.worker) != [] {
      var l := Held(s, e.worker)[0];
      CreditedPush(s.db.ledger, Credit(l.hash, l.copy.user, l.copy.amount), h);
    }
  }

  lemma {:induction false} StuckForever(chain: Chain, s: System, events: seq<Event>, h: string)
    requires Stuck(s.db, h)
    ensures Stuck(Run(chain, s, events).db, h)
    decreases |events|
  {
    hide Stuck, Step;
    if events != [] {
      StuckStays(chain, s, events[0], h);
      StuckForever(chain, Step(chain, s, events[0]), events[1..], h);
    }
  }

  lemma DisagreeIsStuck(d: Db) returns (h: string)
    requires CreditsOk(d) && !RowsAgree(d)
    ensures Stuck(d, h)
  {
    hide Credited;
    h :| h in d.deposits && !(Credited(d.ledger, h) <==> d.deposits[h].status.Confirmed?);
  }

  lemma StuckDisagrees(d: Db, h: string)
    requires Stuck(d, h)
    ensures !RowsAgree(d)
  {}

  lemma SoundCredits(initial: map<string, real>, s: System)
    requires Sound(initial, s)
    ensures CreditsOk(s.db)
  {}

  /** For any number of workers, whatever crashes and fails: after a run every deposit is credited
      exactly when its row is confirmed, if and only if no event of the run put a credited deposit back. */
  lemma {:induction false} AgreeIff(chain: Chain, initial: map<string, real>, s: System, events: seq<Event>)
    requires Sound(initial, s) && RowsAgree(s.db)
    ensures RowsAgree(Run(chain, s, events).db) <==> !SomeReopens(chain, s, events)
    decreases |events|
  {
    hide Sound, RowsAgree, Step, Reopens, Stuck;
    if events != [] {
      var t := Step(chain, s, events[0]);
      StepKeeps(chain, initial, s, events[0]);
      StepAgreesIff(chain, initial, s, events[0]);
      if RowsAgree(t.db) {
        AgreeIff(chain, initial, t, events[1..]);
      } else {
        SoundCredits(initial, t);
        var h := DisagreeIsStuck(t.db);
        StuckForever(chain, t, events[1..], h);
        StuckDisagrees(Run(chain, t, events[1..]).db, h);
      }
    }
  }

  // ---------------------------------------------------------------------------
  // One worker
  // ---------------------------------------------------------------------------

  predicate DistinctHashes(hs: seq<string>) { forall i, j :: 0 <= i < j < |hs| ==> hs[i] != hs[j] }

  /** One worker lists deposits, each once, when it has dealt with the previous list. */
  predicate Solo(s: System, e: Event) {
    e.worker == 0 && (e.List? ==> Held(s, 0) == [] && DistinctHashes(e.hashes))
  }

  predicate AllSolo(chain: Chain, s: System, events: seq<Event>)
    decreases |events|
  {
    events == [] || (Solo(s, events[0]) && AllSolo(chain, Step(chain, s, events[0]), events[1..]))
  }

  /** What is still to be checked is not credited, and each deposit is listed once. */
  predicate Undone(d: Db, ls: seq<Listed>) {
    (forall i :: 0 <= i < |ls| ==> !Credited(d.ledger, ls[i].hash)) &&
    forall i, j :: 0 <= i < j < |ls| ==> ls[i].hash != ls[j].hash
  }

  lemma {:induction false} CopiesUndone(d: Db, hashes: seq<string>)
    requires RowsAgree(d) && DistinctHashes(hashes)
    ensures Undone(d, Copies(d.deposits, hashes))
    ensures forall i :: 0 <= i < |Copies(d.deposits, hashes)| ==> Copies(d.deposits, hashes)[i].hash in hashes
    decreases |hashes|
  {
    hide Credited;
    if hashes != [] {
      assert DistinctHashes(hashes[1..]);
      CopiesUndone(d, hashes[1..]);
      assert hashes[0] !in hashes[1..];
    }
  }

  lemma CheckUndone(d: Db, ls: seq<Listed>, confirmations: int, fails: bool)
    requires ls != [] && Undone(d, ls)
    ensures Undone(Check(d, ls[0].hash, ls[0].copy, confirmations, fails), ls[1..])
  {
    hide Credited;
    var c := Credit(ls[0].hash, ls[0].copy.user, ls[0].copy.amount);
    forall h ensures Credited(d.ledger + [c], h) <==> Credited(d.ledger, h) || h == ls[0].hash { CreditedPush(d.ledger, c, h); }
  }

  /** A single worker never puts a credited deposit back. */
  lemma SoloNeverReopens(chain: Chain, s: System, e: Event)
    requires RowsAgree(s.db) && Undone(s.db, Held(s, 0)) && Solo(s, e)
    ensures !Reopens(s, e)
    ensures Undone(Step(chain, s, e).db, Held(Step(chain, s, e), 0))
  {
    hide Credited, DetectAll, RowsAgree, Copies, Check;
    match e {
      case List(_, hashes) => CopiesUndone(s.db, hashes);
      case CheckNext(_, confirmations, fails) =>
        if Held(s, 0) != [] { CheckUndone(s.db, Held(s, 0), confirmations, fails); }
      case _ =>
    }
  }

  /** With a single worker, whatever crashes and fails, a deposit is credited exactly when its row says
      it is confirmed. */
  lemma {:induction false} CreditedIffConfirmed(chain: Chain, initial: map<string, real>, s: System, events: seq<Event>)
    requires Sound(initial, s) && RowsAgree(s.db) && Undone(s.db, Held(s, 0)) && AllSolo(chain, s, events)
    ensures !SomeReopens(chain, s, events) && RowsAgree(Run(chain, s, events).db)
    decreases |events|
  {
    hide Sound, RowsAgree, Undone, Step, Solo, Reopens, Held;
    if events != [] {
      StepKeeps(chain, initial, s, events[0]);
      SoloNeverReopens(chain, s, events[0]);
      StepAgreesIff(chain, initial, s, events[0]);
      CreditedIffConfirmed(chain, initial, Step(chain, s, events[0]), events[1..]);
    }
  }

  // ---------------------------------------------------------------------------
  // A run of two workers that does put a deposit back
  // ---------------------------------------------------------------------------

  const EMPTY := System(Db(map[], [], map[], None), map[], map[], {}, {}, {})

  /** Nothing scanned, nothing credited: where every run may start. */
  lemma EmptyIsSound()
    ensures Sound(map[], EMPTY) && RowsAgree(EMPTY.db) && Undone(EMPTY.db, Held(EMPTY, 0))
  {}

  /** Once the first scan has initialised the scanner state, nothing behind it has been left out. */
  lemma FirstScanIsGapless(chain: Chain, w: nat, latest: nat, addresses: Addresses, updateLost: bool)
    ensures Gapless(chain, Step(chain, EMPTY, StartScan(w, latest, addresses, false, updateLost)), StartOf(EMPTY.db, latest))
  {
    hide Blocks;
    var start := StartOf(EMPTY.db, latest);
    InBlocks(start + 1, LastOf(start + 1, latest));
  }

  lemma InBlocks(first: int, last: int)
    ensures forall b :: b in Blocks(first, last) <==> first <= b <= last
  {}

  /** Both workers list the deposit while it is pending; the first credits it; the second, which reads
      one confirmation too few, puts it back. */
  function ReopeningRun(hash: string): seq<Event> {
    [StartScan(0, 1, Tracked, false, false), ScanBlock(0, {}, NoTrouble), List(0, [hash]), List(1, [hash]),
     CheckNext(0, 12, false), CheckNext(1, 11, false)]
  }

  lemma RunFirst(chain: Chain, s: System, e: Event, rest: seq<Event>)
    ensures Run(chain, s, [e] + rest) == Run(chain, Step(chain, s, e), rest)
  {
    assert ([e] + rest)[1..] == rest;
  }

  /** With two workers the promise fails: from nothing, this run leaves a credited deposit confirming. */
  lemma SecondWorkerReopens(chain: Chain, hash: string, user: string)
    requires chain(1) == [Transfer(hash, user, 1.0)]
    ensures
      var t := Run(chain, EMPTY, ReopeningRun(hash));
      Credited(t.db.ledger, hash) && hash in t.db.deposits && t.db.deposits[hash].status.Confirming? && !RowsAgree(t.db)
  {
    var row := Deposit(user, 1.0, 0, Pending);
    var es := ReopeningRun(hash);
    var a := Step(chain, EMPTY, es[0]);
    assert a == EMPTY.(db := Db(map[], [], map[], Some(0)), scans := map[0 := (1, 1)]);
    var b := Step(chain, a, es[1]);
    OneTransfer(hash, user);
    assert b.db == Db(map[hash := row], [], map[], Some(1)) && b.listed == map[];
    var l := Listed(hash, row);
    OneCopy(b.db.deposits, hash);
    var d := Step(chain, Step(chain, b, es[2]), es[3]);
    assert d.db == b.db && Held(d, 0) == [l] && Held(d, 1) == [l];
    var f := Step(chain, d, es[4]);
    assert f.db.ledger == [Credit(hash, user, 1.0)] && f.db.ledger[0].hash == hash && Held(f, 1) == [l];
    var g := Step(chain, f, es[5]);
    assert es == [es[0]] + ([es[1]] + ([es[2]] + ([es[3]] + ([es[4]] + ([es[5]] + [])))));
    RunFirst(chain, EMPTY, es[0], [es[1]] + ([es[2]] + ([es[3]] + ([es[4]] + ([es[5]] + [])))));
    RunFirst(chain, a, es[1], [es[2]] + ([es[3]] + ([es[4]] + ([es[5]] + []))));
    RunFirst(chain, b, es[2], [es[3]] + ([es[4]] + ([es[5]] + [])));
    RunFirst(chain, Step(chain, b, es[2]), es[3], [es[4]] + ([es[5]] + []));
    RunFirst(chain, d, es[4], [es[5]] + []);
    RunFirst(chain, f, es[5], []);
    StuckDisagrees(g.db, hash);
  }

  lemma OneTransfer(hash: string, user: string)
    ensures DetectAll(map[], [Transfer(hash, user, 1.0)], {}) == map[hash := Deposit(user, 1.0, 0, Pending)]
  {
    assert [Transfer(hash, user, 1.0)][1..] == [];
  }

  lemma OneCopy(rows: Rows, hash: string)
    requires hash in rows && !rows[hash].status.Confirmed?
    ensures Copies(rows, [hash]) == [Listed(hash, rows[hash])]
  {
    assert [hash][1..] == [];
  }

  // ---------------------------------------------------------------------------
  // The worker
  // ---------------------------------------------------------------------------

  datatype Outcome = Outcome(confirmations: int, fails: bool)

  function CheckAll(d: Db, ls: seq<Listed>, outcomes: seq<Outcome>): Db
    requires |outcomes| == |ls|
    decreases |ls|
  {
    if ls == [] then d
    else CheckAll(Check(d, ls[0].hash, ls[0].copy, outcomes[0].confirmations, outcomes[0].fails), ls[1..], outcomes[1..])
  }

  /** Blocks `b` to `end`, until one gives trouble; `faults` lists what goes wrong, block by block. */
  function ScanAll(chain: Chain, d: Db, b: int, end: int, faults: seq<(set<string>, Trouble)>): Db
    requires b > end || |faults| == end - b + 1
    decreases |faults|
  {
    if b > end || faults[0].1.NoBlock? then d
    else
      var scanned := d.(deposits := DetectAll(d.deposits, chain(b), faults[0].0));
      if faults[0].1.NoUpdate? then scanned
      else if b == end then scanned.(lastScanned := Some(b))
      else ScanAll(chain, scanned.(lastScanned := Some(b)), b + 1, end, faults[1..])
  }

  class WalletWorker {
    var db: Db

    constructor (db: Db)
      ensures this.db == db
    {
      this.db := db;
    }

    /** The transfers of one block, in order. */
    method ScanRealBlock(ts: seq<Transfer>, failed: set<string>)
      modifies this
      ensures db == old(db).(deposits := DetectAll(old(db).deposits, ts, failed))
    {
      assert ts[0..] == ts;
      for i := 0 to |ts|
        invariant DetectAll(old(db).deposits, ts, failed) == DetectAll(db.deposits, ts[i..], failed)
        invariant db == old(db).(deposits := db.deposits)
      {
        assert ts[i..][0] == ts[i] && ts[i..][1..] == ts[i + 1..];
        if ts[i].hash !in db.deposits && ts[i].amount > 0.0 && ts[i].hash !in failed {
          db := db.(deposits := db.deposits[ts[i].hash := Deposit(ts[i].user, ts[i].amount, 0, Pending)]);
        }
      }
    }

    /** One scan: from the block after the last scanned one, at most a window, updating the scanner
        state block by block; any statement may fail.  `unread` says that the latest block or the
        scanner state could not be read. */
    method ScanBlocks(chain: Chain, unread: bool, latest: nat, addresses: Addresses, initFails: bool, updateLost: bool,
                      faults: seq<(set<string>, Trouble)>)
      requires
        var next := StartOf(db, latest) + 1;
        |faults| == if next > latest then 0 else LastOf(next, latest) - next + 1
      modifies this
      ensures unread ==> db == old(db)
      ensures !unread ==>
        var d := StartScanner(old(db), latest, addresses, initFails, updateLost);
        var next := StartOf(old(db), latest) + 1;
        db == if d.lastScanned.None? || next > latest || !addresses.Tracked? then d
              else ScanAll(chain, d, next, LastOf(next, latest), faults)
    {
      hide DetectAll;
      if unread { return; }
      var start := StartOf(db, latest);
      if db.lastScanned.None? {
        if initFails { return; }
        db := db.(lastScanned := Some(start));
      }
      var b, end := start + 1, LastOf(start + 1, latest);
      if b > latest || addresses.Unreadable? { return; }
      if addresses.NoneTracked? {
        if !updateLost {
          db := db.(lastScanned := Some(end));
        }
        return;
      }
      ghost var d := db;
      assert faults[0..] == faults;
      while b <= end
        invariant start + 1 <= b <= end + 1
        invariant b <= end ==> ScanAll(chain, d, start + 1, end, faults) == ScanAll(chain, db, b, end, faults[b - start - 1..])
        invariant b > end ==> ScanAll(chain, d, start + 1, end, faults) == db
      {
        ghost var rest := faults[b - start - 1..];
        var (failed, trouble) := faults[b - start - 1];
        assert rest[0] == (failed, trouble) && rest[1..] == faults[b - start..];
        if trouble.NoBlock? { return; }
        ScanRealBlock(chain(b), failed);
        if trouble.NoUpdate? { return; }
        db := db.(lastScanned := Some(b));
        b := b + 1;
      }
    }

    /** One confirmation pass over the listed deposits. */
    method ConfirmDeposits(hashes: seq<string>, outcomes: seq<Outcome>)
      requires |outcomes| == |Copies(db.deposits, hashes)|
      modifies this
      ensures db == CheckAll(old(db), Copies(old(db).deposits, hashes), outcomes)
    {
      hide Check, Copies;
      var pending := Copies(db.deposits, hashes);
      assert pending[0..] == pending && outcomes[0..] == outcomes;
      for i := 0 to |pending|
        invariant CheckAll(old(db), pending, outcomes) == CheckAll(db, pending[i..], outcomes[i..])
      {
        assert pending[i..][0] == pending[i] && pending[i..][1..] == pending[i + 1..];
        assert outcomes[i..][0] == outcomes[i] && outcomes[i..][1..] == outcomes[i + 1..];
        CheckOne(pending[i], outcomes[i]);
      }
    }

    method CheckOne(l: Listed, o: Outcome)
      modifies this
      ensures db == Check(old(db), l.hash, l.copy, o.confirmations, o.fails)
    {
      if o.fails { return; }
      if o.confirmations >= THRESHOLD {
        if Credited(db.ledger, l.hash) { return; }
        var balances := db.balances[l.copy.user := Balance(db, l.copy.user) + l.copy.amount];
        var ledger := db.ledger + [Credit(l.hash, l.copy.user, l.copy.amount)];
        db := db.(balances := balances, ledger := ledger);
        if l.hash in db.deposits {
          var row := db.deposits[l.hash].(confirmations := o.confirmations, status := Confirmed);
          db := db.(deposits := db.deposits[l.hash := row]);
        }
      } else if l.hash in db.deposits {
        var row := db.deposits[l.hash].(confirmations := o.confirmations, status := Confirming);
        db := db.(deposits := db.deposits[l.hash := row]);
      }
    }
  }

  // ---------------------------------------------------------------------------
  // What a pass and a scan do
  // ---------------------------------------------------------------------------

  function Checks(w: nat, outcomes: seq<Outcome>): seq<Event> {
    seq(|outcomes|, i requires 0 <= i < |outcomes| => CheckNext(w, outcomes[i].confirmations, outcomes[i].fails))
  }

  /** One confirmation pass is a run of that worker. */
  lemma {:induction false} PassIsRun(chain: Chain, s: System, w: nat, outcomes: seq<Outcome>)
    requires |outcomes| == |Held(s, w)|
    ensures Run(chain, s, Checks(w, outcomes)).db == CheckAll(s.db, Held(s, w), outcomes)
    decreases |outcomes|
  {
    hide Check;
    var held := Held(s, w);
    if held != [] {
      var first := CheckNext(w, outcomes[0].confirmations, outcomes[0].fails);
      assert Checks(w, outcomes)[0] == first && Checks(w, outcomes)[1..] == Checks(w, outcomes[1..]);
      assert Held(Step(chain, s, first), w) == held[1..];
      PassIsRun(chain, Step(chain, s, first), w, outcomes[1..]);
    }
  }

  function Scans(w: nat, faults: seq<(set<string>, Trouble)>): seq<Event> {
    seq(|faults|, i requires 0 <= i < |faults| => ScanBlock(w, faults[i].0, faults[i].1))
  }

  /** Once a worker's scan has stopped, its further scan events do nothing to the database. */
  lemma {:induction false} StoppedScan(chain: Chain, s: System, w: nat, faults: seq<(set<string>, Trouble)>)
    requires w !in s.scans || s.scans[w].0 > s.scans[w].1
    ensures Run(chain, s, Scans(w, faults)).db == s.db
    decreases |faults|
  {
    if faults != [] {
      assert Scans(w, faults)[0] == ScanBlock(w, faults[0].0, faults[0].1) && Scans(w, faults)[1..] == Scans(w, faults[1..]);
      StoppedScan(chain, Step(chain, s, Scans(w, faults)[0]), w, faults[1..]);
    }
  }

  /** One scan of a window is a run of that worker. */
  lemma {:induction false} ScanIsRun(chain: Chain, s: System, w: nat, faults: seq<(set<string>, Trouble)>)
    requires w in s.scans && (s.scans[w].0 > s.scans[w].1 || |faults| == s.scans[w].1 - s.scans[w].0 + 1)
    ensures Run(chain, s, Scans(w, faults)).db == ScanAll(chain, s.db, s.scans[w].0, s.scans[w].1, faults)
    decreases |faults|
  {
    hide DetectAll;
    var (b, end) := s.scans[w];
    if b > end {
      StoppedScan(chain, s, w, faults);
    } else {
      var first := ScanBlock(w, faults[0].0, faults[0].1);
      var next := Step(chain, s, first);
      assert Scans(w, faults)[0] == first && Scans(w, faults)[1..] == Scans(w, faults[1..]);
      if faults[0].1.NoTrouble? {
        ScanIsRun(chain, next, w, faults[1..]);
      } else {
        StoppedScan(chain, next, w, faults[1..]);
      }
    }
  }

  predicate Enough(o: Outcome) { o.confirmations >= 12 && !o.fails }

  lemma CheckCredits(d: Db, l: Listed, o: Outcome, hash: string)
    ensures Credited(Check(d, l.hash, l.copy, o.confirmations, o.fails).ledger, hash) <==>
      Credited(d.ledger, hash) || (l.hash == hash && Enough(o))
  {
    CreditedPush(d.ledger, Credit(l.hash, l.copy.user, l.copy.amount), hash);
  }

  /** A check that goes through leaves its deposit with the confirmations found, confirmed from twelve on and
      confirming below, and touches no other row; a credit is what was listed. */
  lemma RowAfterCheck(d: Db, l: Listed, o: Outcome, hash: string)
    requires !Credited(d.ledger, l.hash)
    ensures
      var after := Check(d, l.hash, l.copy, o.confirmations, o.fails);
      (o.fails ==> after == d) &&
      (!o.fails && hash in d.deposits ==>
        hash in after.deposits &&
        after.deposits[hash] == if hash != l.hash then d.deposits[hash]
          else d.deposits[hash].(confirmations := o.confirmations, status := if o.confirmations >= 12 then Confirmed else Confirming)) &&
      (Enough(o) ==> after.ledger == d.ledger + [Credit(l.hash, l.copy.user, l.copy.amount)]) &&
      (!Enough(o) ==> after.ledger == d.ledger && after.balances == d.balances)
  {}

  /** A confirmation pass credits exactly the listed deposits that it finds at twelve confirmations or more
      and whose transaction does not fail. */
  lemma {:induction false} PassCredits(d: Db, ls: seq<Listed>, outcomes: seq<Outcome>, hash: string)
    requires |outcomes| == |ls|
    ensures Credited(CheckAll(d, ls, outcomes).ledger, hash) <==>
      Credited(d.ledger, hash) || exists i :: 0 <= i < |ls| && ls[i].hash == hash && Enough(outcomes[i])
    decreases |ls|
  {
    hide Check, Credited, Enough;
    if ls != [] {
      var next := Check(d, ls[0].hash, ls[0].copy, outcomes[0].confirmations, outcomes[0].fails);
      CheckCredits(d, ls[0], outcomes[0], hash);
      PassCredits(next, ls[1..], outcomes[1..], hash);
      if i :| 0 <= i < |ls[1..]| && ls[1..][i].hash == hash && Enough(outcomes[1..][i]) {
        assert ls[i + 1].hash == hash && Enough(outcomes[i + 1]);
      }
      if i :| 0 < i < |ls| && ls[i].hash == hash && Enough(outcomes[i]) {
        assert ls[1..][i - 1].hash == hash && Enough(outcomes[1..][i - 1]);
      }
    }
  }

  lemma {:induction false} Detected(rows: Rows, ts: seq<Transfer>, failed: set<string>, k: nat)
    requires k < |ts| && ts[k].amount > 0.0 && ts[k].hash !in failed
    ensures ts[k].hash in DetectAll(rows, ts, failed) && rows.Keys <= DetectAll(rows, ts, failed).Keys
    decreases |ts|
  {
    var next := Detect(rows, ts[0], failed);
    if k == 0 {
      RowsStay(next, ts[1..], failed);
    } else {
      Detected(next, ts[1..], failed, k - 1);
    }
  }

  lemma {:induction false} RowsStay(rows: Rows, ts: seq<Transfer>, failed: set<string>)
    ensures rows.Keys <= DetectAll(rows, ts, failed).Keys
    decreases |ts|
  {
    if ts != [] { RowsStay(Detect(rows, ts[0], failed), ts[1..], failed); }
  }

  /** A scan without trouble ends at the end of its window, with a row for every positive transfer of its
      blocks. */
  lemma {:induction false} CleanScan(chain: Chain, d: Db, b: int, end: int, faults: seq<(set<string>, Trouble)>, block: int, k: nat)
    requires b <= block <= end && |faults| == end - b + 1 && forall i :: 0 <= i < |faults| ==> faults[i] == ({}, NoTrouble)
    requires k < |chain(block)| && chain(block)[k].amount > 0.0
    ensures
      var after := ScanAll(chain, d, b, end, faults);
      after.lastScanned == Some(end) && chain(block)[k].hash in after.deposits && d.deposits.Keys <= after.deposits.Keys
    decreases |faults|
  {
    hide DetectAll;
    var rows := DetectAll(d.deposits, chain(b), {});
    var next := d.(deposits := rows, lastScanned := Some(b));
    RowsStay(d.deposits, chain(b), {});
    if block == b { Detected(d.deposits, chain(b), {}, k); }
    if b < end {
      if block > b { CleanScan(chain, next, b + 1, end, faults[1..], block, k); } else { ScansOn(chain, next, b + 1, end, faults[1..]); }
    }
  }

  lemma {:induction false} ScansOn(chain: Chain, d: Db, b: int, end: int, faults: seq<(set<string>, Trouble)>)
    requires b <= end && |faults| == end - b + 1 && forall i :: 0 <= i < |faults| ==> faults[i] == ({}, NoTrouble)
    ensures
      var after := ScanAll(chain, d, b, end, faults);
      after.lastScanned == Some(end) && d.deposits.Keys <= after.deposits.Keys
    decreases |faults|
  {
    hide DetectAll;
    RowsStay(d.deposits, chain(b), {});
    if b < end { ScansOn(chain, d.(deposits := DetectAll(d.deposits, chain(b), {}), lastScanned := Some(b)), b + 1, end, faults[1..]); }
  }

  /** The window of a scan: from the block after the last scanned one, or from the tip when there is none,
      over at most fifty-one blocks. */
  lemma WindowIs(d: Db, latest: nat)
    ensures
      var next := StartOf(d, latest) + 1;
      (d.lastScanned.Some? ==> next == d.lastScanned.value + 1) && (d.lastScanned.None? && latest > 0 ==> next == latest) &&
      (next <= latest ==> next <= LastOf(next, latest) <= latest && LastOf(next, latest) - next <= 50) &&
      (next <= latest && LastOf(next, latest) < latest ==> LastOf(next, latest) == next + 50)
  {}

  predicate Pays(t: Transfer, hash: string) { t.hash == hash && t.amount > 0.0 }

  /** What scanning a block makes of the deposit table: rows that are there stay as they are; a row is new
      exactly when the block has a positive transfer of its hash whose insert does not fail, and says what the
      first such transfer says, unconfirmed and pending. */
  lemma {:induction false} RowsAfterScan(rows: Rows, ts: seq<Transfer>, failed: set<string>, hash: string)
    ensures
      var after := DetectAll(rows, ts, failed);
      (hash in rows ==> hash in after && after[hash] == rows[hash]) &&
      (hash !in rows && hash in after ==>
        hash !in failed &&
        exists k :: 0 <= k < |ts| && Pays(ts[k], hash) && (forall j :: 0 <= j < k ==> !Pays(ts[j], hash)) &&
          after[hash] == Deposit(ts[k].user, ts[k].amount, 0, Pending)) &&
      (hash !in failed && (exists k :: 0 <= k < |ts| && Pays(ts[k], hash)) ==> hash in after)
    decreases |ts|
  {
    if ts != [] {
      var next, rest := Detect(rows, ts[0], failed), ts[1..];
      RowsAfterScan(next, rest, failed, hash);
      var after := DetectAll(next, rest, failed);
      if hash !in rows && hash in after {
        if hash in next {
          assert Pays(ts[0], hash);
        } else {
          var k :| 0 <= k < |rest| && Pays(rest[k], hash) && (forall j :: 0 <= j < k ==> !Pays(rest[j], hash)) &&
            after[hash] == Deposit(rest[k].user, rest[k].amount, 0, Pending);
          assert ts[k + 1] == rest[k] && !Pays(ts[0], hash);
          forall j | 0 <= j < k + 1 ensures !Pays(ts[j], hash) { if j > 0 { assert ts[j] == rest[j - 1]; } }
        }
      }
      if k :| 0 <= k < |ts| && Pays(ts[k], hash) && hash !in failed {
        if k > 0 { assert Pays(rest[k - 1], hash); }
      }
    }
  }

  /** The scanner state after the start of a scan: where it was, or just behind the tip; past the window when no
      address is tracked and the update is not lost; and still missing when its insert fails. */
  lemma ScanStarts(d: Db, latest: nat, addresses: Addresses, initFails: bool, updateLost: bool)
    ensures
      var after := StartScanner(d, latest, addresses, initFails, updateLost);
      var start := if d.lastScanned.Some? then d.lastScanned.value else if latest == 0 then 0 else latest - 1;
      var end := if latest > start + 51 then start + 51 else latest;
      after == d.(lastScanned := after.lastScanned) &&
      after.lastScanned ==
        if d.lastScanned == None && initFails then None
        else if start < latest && addresses == NoneTracked && !updateLost then Some(end)
        else Some(start)
  {}
}
