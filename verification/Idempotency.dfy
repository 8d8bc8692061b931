/** The idempotency middleware: a keyed record around the handler call.  Each database statement is one
    atomic step; any number of requests interleave, crash, and lose their last update. */
module Idempotency {
  import opened Wrappers

  datatype Key = Key(idKey: string, user: string)

  datatype Response = Response(status: int, body: string)

  /** A row of the table; `Processing` until the handler's response has been stored. */
  datatype Progress = Processing | Completed(response: Response)

  datatype Record = Record(hash: string, progress: Progress)

  type Table = map<Key, Record>

  datatype Request = Request(key: Key, hash: string)

  datatype Answer =
    | InProgress            // 409: a request with this key is being handled
    | PayloadDiffers        // 409: the stored payload hash is another one
    | Duplicate             // 409: the insert failed
    | Replay(response: Response)
    | Own(response: Response)

  /** What the first query decides; a failing query counts as finding nothing. */
  function Decide(found: Option<Record>, hash: string): Option<Answer> {
    match found
    case None => None
    case Some(r) =>
      if r.progress.Processing? then Some(InProgress)
      else if r.hash != hash then Some(PayloadDiffers)
      else Some(Replay(r.progress.response))
  }

  /** A stored response is replayed exactly when the key has a completed record with the same payload hash; a
      key being handled, and a completed one with another hash, are turned away; any other key goes on. */
  lemma ReplayIff(found: Option<Record>, hash: string, response: Response)
    ensures Decide(found, hash) == Some(Replay(response)) <==> found == Some(Record(hash, Completed(response)))
    ensures Decide(found, hash) == Some(InProgress) <==> found.Some? && found.value.progress == Processing
    ensures Decide(found, hash) == Some(PayloadDiffers) <==>
      found.Some? && found.value.progress != Processing && found.value.hash != hash
    ensures Decide(found, hash) == None <==> found == None
  {}

  function Find(t: Table, k: Key): Option<Record> { if k in t then Some(t[k]) else None }

  /** The insert violates the primary key if the row exists. */
  function InsertRow(t: Table, r: Request): Table {
    if r.key in t then t else t[r.key := Record(r.hash, Processing)]
  }

  function CompleteRow(t: Table, k: Key, response: Response): Table {
    if k in t then t[k := t[k].(progress := Completed(response))] else t
  }

  // ---------------------------------------------------------------------------
  // The protocol
  // ---------------------------------------------------------------------------

  datatype Phase =
    | Arrived
    | Missed                         // the query found nothing, the insert comes next
    | Handling                       // the row is inserted, the handler runs next
    | Handled(response: Response)    // the handler has run, the update comes next
    | Answered(answer: Answer)
    | Crashed

  /** One run of the handler. */
  datatype Execution = Execution(request: nat, key: Key, hash: string, response: Response)

  datatype Process = Process(request: Request, phase: Phase)

  datatype State = State(table: Table, procs: seq<Process>, log: seq<Execution>)

  datatype Event =
    | Arrive(request: Request)
    | Query(i: nat, fails: bool)
    | Insert(i: nat, fails: bool)
    | RunHandler(i: nat, response: Response)
    | Update(i: nat, lost: bool)
    | Crash(i: nat)

  function Become(s: State, i: nat, phase: Phase): State
    requires i < |s.procs|
  {
    s.(procs := s.procs[i := s.procs[i].(phase := phase)])
  }

  /** A step of a request that is not at that point of its code changes nothing. */
  function Step(s: State, e: Event): State {
    match e
    case Arrive(r) => s.(procs := s.procs + [Process(r, Arrived)])
    case Query(i, fails) =>
      if i >= |s.procs| || !s.procs[i].phase.Arrived? then s
      else
        var r := s.procs[i].request;
        var d := Decide(if fails then None else Find(s.table, r.key), r.hash);
        Become(s, i, if d.None? then Missed else Answered(d.value))
    case Insert(i, fails) =>
      if i >= |s.procs| || !s.procs[i].phase.Missed? then s
      else if fails || s.procs[i].request.key in s.table then Become(s, i, Answered(Duplicate))
      else Become(s, i, Handling).(table := InsertRow(s.table, s.procs[i].request))
    case RunHandler(i, response) =>
      if i >= |s.procs| || !s.procs[i].phase.Handling? then s
      else Become(s, i, Handled(response)).(log := s.log + [Ran(i, s.procs[i].request, response)])
    case Update(i, lost) =>
      if i >= |s.procs| || !s.procs[i].phase.Handled? then s
      else
        var response := s.procs[i].phase.response;
        Become(s, i, Answered(Own(response))).(
          table := if lost then s.table else CompleteRow(s.table, s.procs[i].request.key, response))
    case Crash(i) => if i < |s.procs| then Become(s, i, Crashed) else s
  }

  function Ran(i: nat, r: Request, response: Response): Execution { Execution(i, r.key, r.hash, response) }

  function Run(s: State, events: seq<Event>): State
    decreases |events|
  {
    if events == [] then s else Run(Step(s, events[0]), events[1..])
  }

  const START := State(map[], [], [])

  // ---------------------------------------------------------------------------
  // What every step keeps
  // ---------------------------------------------------------------------------

  /** The handler has run for this key and payload, with this response. */
  predicate Logged(log: seq<Execution>, key: Key, hash: string, response: Response) {
    exists k :: 0 <= k < |log| && log[k].key == key && log[k].hash == hash && log[k].response == response
  }

  predicate Unrun(log: seq<Execution>, key: Key) { forall k :: 0 <= k < |log| ==> log[k].key != key }

  predicate ProcOk(table: Table, log: seq<Execution>, i: nat, p: Process) {
    match p.phase
    case Handling =>
      p.request.key in table && table[p.request.key] == Record(p.request.hash, Processing) && Unrun(log, p.request.key)
    case Handled(response) => Ran(i, p.request, response) in log
    case Answered(a) =>
      (a.Own? ==> Ran(i, p.request, a.response) in log) &&
      (a.Replay? ==> Logged(log, p.request.key, p.request.hash, a.response))
    case _ => true
  }

  /** Every execution has its row, and every stored response is that of an execution. */
  predicate TableOk(table: Table, log: seq<Execution>) {
    (forall k :: 0 <= k < |log| ==> log[k].key in table && table[log[k].key].hash == log[k].hash) &&
    forall key :: key in table && table[key].progress.Completed? ==>
      Logged(log, key, table[key].hash, table[key].progress.response)
  }

  predicate OneRun(log: seq<Execution>) { forall k, l :: 0 <= k < l < |log| ==> log[k].key != log[l].key }

  /** At most one request per key is about to run the handler. */
  predicate OneHolder(procs: seq<Process>) {
    forall i, j :: 0 <= i < j < |procs| && procs[i].phase.Handling? && procs[j].phase.Handling? ==>
      procs[i].request.key != procs[j].request.key
  }

  predicate Inv(s: State) {
    TableOk(s.table, s.log) && OneRun(s.log) && OneHolder(s.procs) &&
    forall i :: 0 <= i < |s.procs| ==> ProcOk(s.table, s.log, i, s.procs[i])
  }

  lemma LoggedGrows(log: seq<Execution>, x: Execution, key: Key, hash: string, response: Response)
    ensures Logged(log, key, hash, response) ==> Logged(log + [x], key, hash, response)
    ensures Logged(log + [x], x.key, x.hash, x.response)
  {
    if Logged(log, key, hash, response) {
      var k :| 0 <= k < |log| && log[k].key == key && log[k].hash == hash && log[k].response == response;
      assert (log + [x])[k] == log[k];
    }
    assert (log + [x])[|log|] == x;
  }

  lemma LoggedMember(log: seq<Execution>, i: nat, r: Request, response: Response)
    requires Ran(i, r, response) in log
    ensures Logged(log, r.key, r.hash, response)
  {
    var k :| 0 <= k < |log| && log[k] == Ran(i, r, response);
    assert log[k].key == r.key;
  }

  /** What holds of another request still holds after a handler has run for a different key. */
  lemma OthersStayRun(table: Table, log: seq<Execution>, x: Execution, i: nat, p: Process)
    requires ProcOk(table, log, i, p) && (p.phase.Handling? ==> x.key != p.request.key)
    ensures ProcOk(table, log + [x], i, p)
  {
    if p.phase.Answered? && p.phase.answer.Replay? {
      LoggedGrows(log, x, p.request.key, p.request.hash, p.phase.answer.response);
    }
  }

  lemma QueryKeeps(s: State, i: nat, fails: bool)
    requires Inv(s)
    ensures Inv(Step(s, Query(i, fails)))
  {
    hide Logged;
  }

  /** The row of an inserting request is new, so no other request holds its key and no execution has it. */
  lemma InsertKeeps(s: State, i: nat, fails: bool)
    requires Inv(s)
    ensures Inv(Step(s, Insert(i, fails)))
  {
    hide Logged;
    var t := Step(s, Insert(i, fails));
    forall j | 0 <= j < |t.procs| ensures ProcOk(t.table, t.log, j, t.procs[j]) {
      if j != i || t.table == s.table { assert ProcOk(s.table, s.log, j, s.procs[j]); }
    }
    if t.table != s.table {
      forall j | 0 <= j < |s.procs| && s.procs[j].phase.Handling? ensures s.procs[j].request.key in s.table {
        assert ProcOk(s.table, s.log, j, s.procs[j]);
      }
    }
  }

  lemma RunKeeps(s: State, i: nat, response: Response)
    requires Inv(s) && i < |s.procs| && s.procs[i].phase.Handling?
    ensures Inv(Step(s, RunHandler(i, response)))
  {
    hide Logged;
    var p := s.procs[i];
    var x := Ran(i, p.request, response);
    var t := Step(s, RunHandler(i, response));
    assert ProcOk(s.table, s.log, i, p);
    forall j | 0 <= j < |t.procs| ensures ProcOk(t.table, t.log, j, t.procs[j]) {
      if j != i {
        OthersStayRun(s.table, s.log, x, j, s.procs[j]);
      } else {
        assert (s.log + [x])[|s.log|] == x;
      }
    }
    forall key | key in s.table && s.table[key].progress.Completed?
      ensures Logged(t.log, key, s.table[key].hash, s.table[key].progress.response)
    {
      LoggedGrows(s.log, x, key, s.table[key].hash, s.table[key].progress.response);
    }
  }

  lemma UpdateKeeps(s: State, i: nat, lost: bool)
    requires Inv(s) && i < |s.procs| && s.procs[i].phase.Handled?
    ensures Inv(Step(s, Update(i, lost)))
  {
    hide Logged;
    var p := s.procs[i];
    var t := Step(s, Update(i, lost));
    assert ProcOk(s.table, s.log, i, p);
    LoggedMember(s.log, i, p.request, p.phase.response);
    var k :| 0 <= k < |s.log| && s.log[k] == Ran(i, p.request, p.phase.response);
    forall j | 0 <= j < |t.procs| ensures ProcOk(t.table, t.log, j, t.procs[j]) {
      assert ProcOk(s.table, s.log, j, s.procs[j]);
    }
  }

  lemma StepKeeps(s: State, e: Event)
    requires Inv(s)
    ensures Inv(Step(s, e))
  {
    match e
    case Arrive(r) =>
    case Query(i, fails) => QueryKeeps(s, i, fails);
    case Insert(i, fails) => InsertKeeps(s, i, fails);
    case RunHandler(i, response) => if i < |s.procs| && s.procs[i].phase.Handling? { RunKeeps(s, i, response); }
    case Update(i, lost) => if i < |s.procs| && s.procs[i].phase.Handled? { UpdateKeeps(s, i, lost); }
    case Crash(i) =>
  }

  lemma {:induction false} RunsKeep(s: State, events: seq<Event>)
    requires Inv(s)
    ensures Inv(Run(s, events))
    decreases |events|
  {
    hide Inv, Step;
    if events != [] {
      StepKeeps(s, events[0]);
      RunsKeep(Step(s, events[0]), events[1..]);
    }
  }

  /** For any number of interleaved requests, with failing queries and inserts, lost updates and
      crashes anywhere: the handler runs at most once for a key; and a response that is replayed is the
      one that this single execution produced, for a request with the same payload hash. */
  lemma HandledOnce(events: seq<Event>, i: nat)
    ensures
      var s := Run(START, events);
      OneRun(s.log) &&
      (i < |s.procs| && s.procs[i].phase.Answered? && s.procs[i].phase.answer.Replay? ==>
        exists k :: 0 <= k < |s.log| && s.log[k].key == s.procs[i].request.key &&
          s.log[k].hash == s.procs[i].request.hash && s.log[k].response == s.procs[i].phase.answer.response &&
          forall l :: 0 <= l < |s.log| && s.log[l].key == s.procs[i].request.key ==> l == k)
  {
    RunsKeep(START, events);
    var s := Run(START, events);
    if i < |s.procs| && s.procs[i].phase.Answered? && s.procs[i].phase.answer.Replay? {
      assert ProcOk(s.table, s.log, i, s.procs[i]);
      var r, response := s.procs[i].request, s.procs[i].phase.answer.response;
      var k :| 0 <= k < |s.log| && s.log[k].key == r.key && s.log[k].hash == r.hash && s.log[k].response == response;
      assert forall l :: 0 <= l < |s.log| && s.log[l].key == r.key ==> l == k;
    }
  }

  // ---------------------------------------------------------------------------
  // The middleware itself
  // ---------------------------------------------------------------------------

  /** The record table; every method is one statement of the middleware. */
  class Records {
    var table: Table

    constructor ()
      ensures table == map[]
    {
      table := map[];
    }

    method Lookup(k: Key) returns (found: Option<Record>)
      ensures found == Find(table, k)
    {
      found := if k in table then Some(table[k]) else None;
    }

    method Add(r: Request) returns (ok: bool)
      modifies this
      ensures ok <==> r.key !in old(table)
      ensures table == InsertRow(old(table), r)
    {
      ok := r.key !in table;
      if ok { table := table[r.key := Record(r.hash, Processing)]; }
    }

    method Store(k: Key, response: Response)
      modifies this
      ensures table == CompleteRow(old(table), k, response)
    {
      if k in table { table := table[k := table[k].(progress := Completed(response))]; }
    }

    /** One request from arrival to answer, undisturbed; `response` is what the handler would say.  A
        request without a key or a user, or without a database, is `untracked` and goes straight on. */
    method Serve(r: Request, untracked: bool, response: Response) returns (answer: Answer, ran: bool)
      modifies this
      ensures ran <==> untracked || r.key !in old(table)
      ensures ran ==> answer == Own(response)
      ensures ran ==> table == if untracked then old(table) else old(table)[r.key := Record(r.hash, Completed(response))]
      ensures !ran ==> table == old(table)
      ensures !ran ==>
        answer == match old(table)[r.key].progress
                  case Processing => InProgress
                  case Completed(stored) => if old(table)[r.key].hash == r.hash then Replay(stored) else PayloadDiffers
    {
      if untracked { return Own(response), true; }
      var found := Lookup(r.key);
      var decision := Decide(found, r.hash);
      if decision.Some? { return decision.value, false; }
      var ok := Add(r);
      Store(r.key, response);
      answer, ran := Own(response), true;
    }
  }

  /** The steps of the protocol, taken without interruption, do what the middleware does. */
  lemma ServedAlone(s: State, r: Request, response: Response)
    requires r.key !in s.table
    ensures
      var i := |s.procs|;
      var queried := Step(Step(s, Arrive(r)), Query(i, false));
      var handled := Step(Step(queried, Insert(i, false)), RunHandler(i, response));
      Step(handled, Update(i, false)) ==
        State(s.table[r.key := Record(r.hash, Completed(response))], s.procs + [Process(r, Answered(Own(response)))],
              s.log + [Ran(i, r, response)])
  {
    var i, p := |s.procs|, s.procs;
    var queried := Step(Step(s, Arrive(r)), Query(i, false));
    assert queried == s.(procs := p + [Process(r, Missed)]);
    var inserted := Step(queried, Insert(i, false));
    assert inserted == s.(procs := p + [Process(r, Handling)], table := s.table[r.key := Record(r.hash, Processing)]);
    var handled := Step(inserted, RunHandler(i, response));
    assert handled.procs == p + [Process(r, Handled(response))];
  }

  /** A request whose insert fails or finds the key taken is turned away as a duplicate and leaves the
      table alone; otherwise the record holds its payload hash and it goes on to the handler. */
  lemma InsertDecides(s: State, i: nat, fails: bool)
    requires i < |s.procs| && s.procs[i].phase == Missed
    ensures
      var after, r := Step(s, Insert(i, fails)), s.procs[i].request;
      after.log == s.log &&
      if fails || r.key in s.table then after.procs[i].phase == Answered(Duplicate) && after.table == s.table
      else after.procs[i].phase == Handling && after.table == s.table[r.key := Record(r.hash, Processing)]
  {}

  /** A request served twice: the second time the handler does not run, and the first response is replayed. */
  method ServeTwice(records: Records, r: Request, response: Response, other: Response) returns (again: Answer, ran: bool)
    requires r.key !in records.table
    modifies records
    ensures again == Replay(response) && !ran
  {
    var first, _ := records.Serve(r, false, response);
    again, ran := records.Serve(r, false, other);
  }

  predicate Holds(t: Table, key: Key, record: Record) { key in t && t[key] == record }

  /** A second request that has run the handler for this key is the same execution, so its update stores
      the same response. */
  lemma StoredStays(s: State, e: Event, key: Key, hash: string, response: Response)
    requires Inv(s) && Holds(s.table, key, Record(hash, Completed(response)))
    ensures Holds(Step(s, e).table, key, Record(hash, Completed(response)))
  {
    if e.Update? && e.i < |s.procs| && s.procs[e.i].phase.Handled? && s.procs[e.i].request.key == key {
      assert ProcOk(s.table, s.log, e.i, s.procs[e.i]);
      SameRun(s, e.i, key, hash, response);
    }
  }

  lemma SameRun(s: State, i: nat, key: Key, hash: string, response: Response)
    requires Inv(s) && Holds(s.table, key, Record(hash, Completed(response)))
    requires i < |s.procs| && s.procs[i].phase.Handled? && s.procs[i].request.key == key
    ensures s.procs[i].phase.response == response
  {
    assert ProcOk(s.table, s.log, i, s.procs[i]);
    var k :| 0 <= k < |s.log| && s.log[k] == Ran(i, s.procs[i].request, s.procs[i].phase.response);
    assert Logged(s.log, key, hash, response);
    var l :| 0 <= l < |s.log| && s.log[l].key == key && s.log[l].hash == hash && s.log[l].response == response;
    assert k == l;
  }

  lemma {:induction false} StoredForever(s: State, events: seq<Event>, key: Key, hash: string, response: Response)
    requires Inv(s) && Holds(s.table, key, Record(hash, Completed(response)))
    ensures Inv(Run(s, events)) && Holds(Run(s, events).table, key, Record(hash, Completed(response)))
    decreases |events|
  {
    hide Inv, Step;
    if events != [] {
      StoredStays(s, events[0], key, hash, response);
      StepKeeps(s, events[0]);
      StoredForever(Step(s, events[0]), events[1..], key, hash, response);
    }
  }

  /** Once a response is stored it stays, whatever runs; and every later query for the key with the same
      payload hash that does not fail replays it. */
  lemma ReplayedForever(s: State, events: seq<Event>, i: nat, key: Key, hash: string, response: Response)
    requires Inv(s) && Holds(s.table, key, Record(hash, Completed(response)))
    requires
      var t := Run(s, events);
      i < |t.procs| && t.procs[i].phase.Arrived? && t.procs[i].request == Request(key, hash)
    ensures Step(Run(s, events), Query(i, false)).procs[i].phase == Answered(Replay(response))
  {
    hide Inv;
    StoredForever(s, events, key, hash, response);
  }

  /** The first query: a request goes on to the insert when the query fails or finds nothing, and is answered
      from the record it finds, without touching the table or running the handler. */
  lemma QueryDecides(s: State, i: nat, fails: bool)
    requires i < |s.procs| && s.procs[i].phase == Arrived
    ensures
      var after, r := Step(s, Query(i, fails)), s.procs[i].request;
      after.table == s.table && after.log == s.log && after.procs[i].request == r &&
      after.procs[i].phase ==
        if fails || r.key !in s.table then Missed
        else match s.table[r.key].progress
          case Processing => Answered(InProgress)
          case Completed(response) => Answered(if s.table[r.key].hash == r.hash then Replay(response) else PayloadDiffers)
  {}

  /** A crash stops one request where it is and leaves the table, the log and the other requests alone. */
  lemma CrashStops(s: State, i: nat)
    requires i < |s.procs|
    ensures
      var after := Step(s, Crash(i));
      after == s.(procs := s.procs[i := Process(s.procs[i].request, Crashed)])
  {}

  /** The last update: the request answers what its handler said, and the record holds it unless the update is
      lost. */
  lemma UpdateStores(s: State, i: nat, response: Response, lost: bool)
    requires i < |s.procs| && s.procs[i].phase == Handled(response)
    ensures
      var after, key := Step(s, Update(i, lost)), s.procs[i].request.key;
      after.procs[i].phase == Answered(Own(response)) && after.log == s.log &&
      after.table == if lost || key !in s.table then s.table else s.table[key := Record(s.table[key].hash, Completed(response))]
  {}
}
