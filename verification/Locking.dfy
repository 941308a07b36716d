// Row locks and the order every transaction takes them in: runs, then budget periods, then ledger,
// action and approval rows, then tasks, then what a fetch takes of its host, then source rows and
// their links; runs, approvals, source rows and links in id order. Any number of transactions that
// keep to it, beside the one hygiene pass a worker may have open, wait for one another and
// never in a circle.
module Locking {
  import opened IdOrder

  /** Ids stand in their column's order. */
  datatype Row =
    | RunRow(id: nat)
    | PeriodRow(id: nat)
    | CallRow(id: nat)
    | ActionRow(id: nat)
    | ApprovalRow(id: nat)
    | TaskRow(id: nat)
    | HostLock(id: nat)
    | DomainRow(id: nat)
    | FetchedRow(id: nat)
    | SourceRow(id: nat)
    | LinkRow(id: nat)

  function Rank(row: Row): nat {
    match row
    case RunRow(_) => 0
    case PeriodRow(_) => 1
    case CallRow(_) => 2
    case ActionRow(_) => 3
    case ApprovalRow(_) => 4
    case TaskRow(_) => 5
    case HostLock(_) => 6
    case DomainRow(_) => 7
    case FetchedRow(_) => 8
    case SourceRow(_) => 9
    case LinkRow(_) => 10
  }

  /** The tables a transaction may lock several rows of, in id order; of the others it locks one. */
  function Place(row: Row): nat {
    if row.RunRow? || row.PeriodRow? || row.ApprovalRow? || row.SourceRow? || row.LinkRow? then row.id else 0
  }

  predicate Before(x: Row, y: Row) {
    Rank(x) < Rank(y) || (Rank(x) == Rank(y) && Place(x) < Place(y))
  }

  /** `FOR SHARE`, and everything that writes: `FOR UPDATE`, `UPDATE`, an insert's unique key. */
  datatype Mode = Share | Exclusive

  datatype Request = Request(row: Row, mode: Mode)

  predicate Conflict(m: Mode, n: Mode) { m == Exclusive || n == Exclusive }

  /** A lock already held in a mode at least as strong. */
  predicate Retake(script: seq<Request>, i: nat)
    requires i < |script|
  {
    exists j :: 0 <= j < i && script[j].row == script[i].row && (script[j].mode == Exclusive || script[i].mode == Share)
  }

  ghost predicate Climbs(script: seq<Request>, i: nat)
    requires i < |script|
  {
    forall j | 0 <= j < i :: Before(script[j].row, script[i].row)
  }

  /** Each request climbs above every earlier one, or takes again what the transaction holds. */
  ghost predicate Ordered(script: seq<Request>) {
    forall i {:trigger script[i]} | 0 <= i < |script| :: Climbs(script, i) || Retake(script, i)
  }

  /** A sweep's scan: table by table, the rows of each in whatever order they are found. */
  ghost predicate Tiered(script: seq<Request>) {
    forall i, j | 0 <= j < i < |script| :: !Before(script[i].row, script[j].row)
  }

  /** A transaction and how many of its requests have been granted; it keeps them until it ends. */
  datatype Tx = Tx(script: seq<Request>, granted: nat, sweep: bool)
  {
    predicate Wants() { granted < |script| }

    function Next(): Request
      requires Wants()
    {
      script[granted]
    }

    predicate Has(request: Request) {
      exists i :: 0 <= i < granted && i < |script| && script[i] == request
    }
  }

  type Txs = map<nat, Tx>

  predicate Blocks(txs: Txs, u: nat, t: nat) {
    t in txs && u in txs && t != u && txs[t].Wants() &&
    exists m :: txs[u].Has(Request(txs[t].Next().row, m)) && Conflict(m, txs[t].Next().mode)
  }

  ghost predicate Waits(txs: Txs, t: nat) { exists u {:trigger Blocks(txs, u, t)} :: Blocks(txs, u, t) }

  ghost predicate CanGo(txs: Txs, t: nat) { t in txs && !Waits(txs, t) }

  // ----- the transactions of the packages -----

  datatype Operation =
    | OpenGate(run: nat, period: nat, call: nat)
    | Complete(run: nat, period: nat, call: nat)
    | RecordProviderError(run: nat, call: nat)
    | TakeAction(run: nat, action: nat, task: nat)
    | SettleAction(run: nat, action: nat)
    | CreateOrRead(run: nat, approval: nat)
    | MarkNotified(run: nat, approval: nat)
    | WriteStatus(run: nat)
    | Start(run: nat)
    | Bump(run: nat)
    | SetBudget(period: nat)
    | Decide(runs: seq<nat>, approvals: seq<nat>, owner: map<nat, nat>)
    | Hygiene(calls: seq<nat>, actions: seq<nat>, tasks: seq<nat>)
    | Fetch(run: nat, host: nat, domain: nat, fetched: nat)
    | ResolveBatch(run: nat, rows: seq<nat>, linked: set<nat>)

  function Fence(run: nat): seq<Request> { [Request(RunRow(run), Share)] }

  function Lock(row: Row): Request { Request(row, Exclusive) }

  function Locks(rows: seq<Row>): (s: seq<Request>)
    ensures |s| == |rows| && forall i | 0 <= i < |s| :: s[i] == Lock(rows[i])
  {
    seq(|rows|, i requires 0 <= i < |rows| => Lock(rows[i]))
  }

  function Runs(ids: seq<nat>): (rows: seq<Row>)
    ensures |rows| == |ids| && forall i | 0 <= i < |ids| :: rows[i] == RunRow(ids[i])
  {
    seq(|ids|, i requires 0 <= i < |ids| => RunRow(ids[i]))
  }

  function Calls(ids: seq<nat>): (rows: seq<Row>)
    ensures |rows| == |ids| && forall i | 0 <= i < |ids| :: rows[i] == CallRow(ids[i])
  {
    seq(|ids|, i requires 0 <= i < |ids| => CallRow(ids[i]))
  }

  function Actions(ids: seq<nat>): (rows: seq<Row>)
    ensures |rows| == |ids| && forall i | 0 <= i < |ids| :: rows[i] == ActionRow(ids[i])
  {
    seq(|ids|, i requires 0 <= i < |ids| => ActionRow(ids[i]))
  }

  function Approvals(ids: seq<nat>): (rows: seq<Row>)
    ensures |rows| == |ids| && forall i | 0 <= i < |ids| :: rows[i] == ApprovalRow(ids[i])
  {
    seq(|ids|, i requires 0 <= i < |ids| => ApprovalRow(ids[i]))
  }

  function Tasks(ids: seq<nat>): (rows: seq<Row>)
    ensures |rows| == |ids| && forall i | 0 <= i < |ids| :: rows[i] == TaskRow(ids[i])
  {
    seq(|ids|, i requires 0 <= i < |ids| => TaskRow(ids[i]))
  }

  /** The approvals of one run, in the order they were locked. */
  function Theirs(approvals: seq<nat>, owner: map<nat, nat>, run: nat): (rows: seq<Row>)
    ensures forall row | row in rows :: row in Approvals(approvals)
  {
    if approvals == [] then []
    else
      var first := approvals[0];
      assert approvals == [first] + approvals[1..];
      assert Approvals(approvals)[0] == ApprovalRow(first) && Approvals(approvals)[1..] == Approvals(approvals[1..]);
      (if first in owner && owner[first] == run then [ApprovalRow(first)] else []) + Theirs(approvals[1..], owner, run)
  }

  /** `decideOnce` after its checks: for each run the bump's own `FOR UPDATE`, then its rows' resume. */
  function Late(runs: seq<nat>, approvals: seq<nat>, owner: map<nat, nat>): (rows: seq<Row>)
    ensures forall row | row in rows :: row in Runs(runs) || row in Approvals(approvals)
  {
    if runs == [] then []
    else
      assert Runs(runs)[0] == RunRow(runs[0]) && Runs(runs)[1..] == Runs(runs[1..]);
      [RunRow(runs[0])] + Theirs(approvals, owner, runs[0]) + Late(runs[1..], approvals, owner)
  }

  /** The scan of a resolution batch locks its rows in id order. */
  function Sources(ids: seq<nat>): (rows: seq<Row>)
    ensures |rows| == |ids| && forall i | 0 <= i < |ids| :: rows[i] == SourceRow(ids[i])
  {
    seq(|ids|, i requires 0 <= i < |ids| => SourceRow(ids[i]))
  }

  /** Its loop: each row's link, if it gets one, and then the row again. */
  function Resolving(ids: seq<nat>, linked: set<nat>): seq<Row>
    decreases |ids|
  {
    if ids == [] then []
    else
      var id := ids[|ids| - 1];
      Resolving(ids[..|ids| - 1], linked) + (if id in linked then [LinkRow(id)] else []) + [SourceRow(id)]
  }

  function DecideLocks(op: Operation): seq<Row>
    requires op.Decide?
  {
    Runs(op.runs) + Approvals(op.approvals)
  }

  /** The requests of one transaction, in order. */
  function Script(op: Operation): seq<Request> {
    match op
    case OpenGate(run, period, call) => Fence(run) + Locks([PeriodRow(period), PeriodRow(period), CallRow(call), CallRow(call)])
    case Complete(run, period, call) => Fence(run) + Locks([PeriodRow(period), CallRow(call)])
    case RecordProviderError(run, call) => Fence(run) + Locks([CallRow(call)])
    case TakeAction(run, action, task) => Fence(run) + Locks([ActionRow(action), ActionRow(action), TaskRow(task)])
    case SettleAction(run, action) => Fence(run) + Locks([ActionRow(action)])
    case CreateOrRead(run, approval) => Fence(run) + Locks([ApprovalRow(approval)])
    case MarkNotified(run, approval) => Fence(run) + Locks([ApprovalRow(approval)])
    case WriteStatus(run) => Locks([RunRow(run)])
    case Start(run) => Locks([RunRow(run)])
    case Bump(run) => Locks([RunRow(run), RunRow(run)])
    case SetBudget(period) => Locks([PeriodRow(period), PeriodRow(period)])
    case Decide(runs, approvals, owner) =>
      Locks(DecideLocks(op)) + Locks(Approvals(approvals)) + Locks(Late(runs, approvals, owner))
    case Hygiene(calls, actions, tasks) => Locks(Calls(calls)) + Locks(Actions(actions)) + Locks(Tasks(tasks))
    case Fetch(run, host, domain, fetched) =>
      Fence(run) + Locks([HostLock(host), DomainRow(domain), DomainRow(domain), FetchedRow(fetched)])
    case ResolveBatch(run, rows, linked) => Fence(run) + Locks(Sources(rows)) + Locks(Resolving(rows, linked))
  }

  /** `ORDER BY run_id` and `ORDER BY id`; the hygiene updates name no order. */
  predicate InIdOrder(op: Operation) {
    (op.Decide? ==> Ascending(op.runs) && Ascending(op.approvals)) && (op.ResolveBatch? ==> Ascending(op.rows))
  }

  predicate Sorted(rows: seq<Row>) { forall i, j | 0 <= i < j < |rows| :: Before(rows[i], rows[j]) }

  /** Taking held rows again, in any order and as often as needed, keeps a script ordered. */
  lemma RetakesStayOrdered(held: seq<Row>, again: seq<Row>)
    requires Sorted(held) && forall row | row in again :: row in held
    ensures Ordered(Locks(held) + Locks(again))
  {
    var script := Locks(held) + Locks(again);
    forall i | 0 <= i < |script| ensures Climbs(script, i) || Retake(script, i) {
      if i < |held| {
        assert forall j | 0 <= j < i :: script[j] == Lock(held[j]);
        assert Climbs(script, i);
      } else {
        var row := again[i - |held|];
        assert row in again;
        var j :| 0 <= j < |held| && held[j] == row;
        assert script[j] == Lock(row) && script[i] == Lock(row);
      }
    }
  }

  lemma DecideLocksAreSorted(runs: seq<nat>, approvals: seq<nat>)
    requires Ascending(runs) && Ascending(approvals)
    ensures Sorted(Runs(runs) + Approvals(approvals))
  {
  }

  lemma LocksJoin(first: seq<Row>, second: seq<Row>)
    ensures Locks(first) + Locks(second) == Locks(first + second)
  {
  }

  lemma DecideIsOrdered(runs: seq<nat>, approvals: seq<nat>, owner: map<nat, nat>)
    requires Ascending(runs) && Ascending(approvals)
    ensures Ordered(Script(Decide(runs, approvals, owner)))
  {
    var held, theirs, late := Runs(runs) + Approvals(approvals), Approvals(approvals), Late(runs, approvals, owner);
    DecideLocksAreSorted(runs, approvals);
    forall row | row in theirs + late ensures row in held {}
    RetakesStayOrdered(held, theirs + late);
    LocksJoin(theirs, late);
    assert Script(Decide(runs, approvals, owner)) == Locks(held) + (Locks(theirs) + Locks(late));
  }

  /** One more request, above all the others or held already. */
  lemma OrderedGrows(script: seq<Request>, next: Request)
    requires Ordered(script)
    requires Climbs(script + [next], |script|) || Retake(script + [next], |script|)
    ensures Ordered(script + [next])
  {
    var longer := script + [next];
    forall i | 0 <= i < |longer| ensures Climbs(longer, i) || Retake(longer, i) {
      if i < |script| {
        assert longer[i] == script[i];
        assert Climbs(script, i) ==> forall j | 0 <= j < i :: longer[j] == script[j] && Before(longer[j].row, longer[i].row);
        if Retake(script, i) {
          var j :| 0 <= j < i && script[j].row == script[i].row && (script[j].mode == Exclusive || script[i].mode == Share);
          assert longer[j] == script[j];
        }
      }
    }
  }

  lemma LocksOneMore(rows: seq<Row>, row: Row)
    ensures Locks(rows + [row]) == Locks(rows) + [Lock(row)]
  {
  }

  predicate Scans(script: seq<Request>, ids: seq<nat>) {
    forall id | id in ids :: Lock(SourceRow(id)) in script
  }

  /** Whatever has been taken comes before the links still to come. */
  predicate BeforeLinks(script: seq<Request>, id: nat) {
    forall j | 0 <= j < |script| :: Before(script[j].row, LinkRow(id))
  }

  /** A row of the batch: its link climbs, and itself it is taken again. */
  lemma RowKeepsOrder(script: seq<Request>, ids: seq<nat>, linked: set<nat>, id: nat)
    requires Ordered(script) && Scans(script, ids) && id in ids && BeforeLinks(script, id)
    ensures var longer := script + Locks(if id in linked then [LinkRow(id)] else []) + [Lock(SourceRow(id))];
            Ordered(longer) && Scans(longer, ids) && forall later | id < later :: BeforeLinks(longer, later)
  {
    var link := Locks(if id in linked then [LinkRow(id)] else []);
    var middle := script + link;
    if id in linked {
      assert link == [Lock(LinkRow(id))];
      OrderedGrows(script, Lock(LinkRow(id)));
    } else {
      assert middle == script;
    }
    var i :| 0 <= i < |script| && script[i] == Lock(SourceRow(id));
    assert (middle + [Lock(SourceRow(id))])[i] == Lock(SourceRow(id));
    OrderedGrows(middle, Lock(SourceRow(id)));
  }

  /** One row more of the loop. */
  lemma ResolvingOneMore(all: seq<nat>, k: nat, linked: set<nat>)
    requires 0 < k <= |all|
    ensures var id := all[k - 1];
            Locks(Resolving(all[..k], linked)) ==
              Locks(Resolving(all[..k - 1], linked)) + Locks(if id in linked then [LinkRow(id)] else []) + [Lock(SourceRow(id))]
  {
    var init, id := all[..k - 1], all[k - 1];
    var link := if id in linked then [LinkRow(id)] else [];
    assert all[..k][..k - 1] == init;
    LocksJoin(Resolving(init, linked), link);
    LocksOneMore(Resolving(init, linked) + link, SourceRow(id));
  }

  /** The links from here on climb above all that has been taken. */
  predicate LinksClimb(script: seq<Request>, all: seq<nat>, k: nat) {
    forall m | k <= m < |all| :: BeforeLinks(script, all[m])
  }

  lemma {:induction false} LoopKeepsOrder(base: seq<Request>, all: seq<nat>, k: nat, linked: set<nat>)
    requires Ordered(base) && Scans(base, all) && Ascending(all) && k <= |all| && LinksClimb(base, all, 0)
    ensures var script := base + Locks(Resolving(all[..k], linked));
            Ordered(script) && Scans(script, all) && LinksClimb(script, all, k)
    decreases k
  {
    if k == 0 {
      assert base + Locks(Resolving(all[..0], linked)) == base;
    } else {
      LoopKeepsOrder(base, all, k - 1, linked);
      var init, id := Locks(Resolving(all[..k - 1], linked)), all[k - 1];
      var link := Locks(if id in linked then [LinkRow(id)] else []);
      RowKeepsOrder(base + init, all, linked, id);
      ResolvingOneMore(all, k, linked);
      SameScript(base, init, link, [Lock(SourceRow(id))]);
    }
  }

  lemma SameScript(a: seq<Request>, b: seq<Request>, c: seq<Request>, d: seq<Request>)
    ensures a + (b + c + d) == a + b + c + d
  {
  }

  lemma ScanIsOrdered(run: nat, rows: seq<nat>)
    requires Ascending(rows)
    ensures var base := Fence(run) + Locks(Sources(rows));
            Ordered(base) && Scans(base, rows) && LinksClimb(base, rows, 0)
  {
    var base := Fence(run) + Locks(Sources(rows));
    forall i | 0 <= i < |base| ensures Climbs(base, i) {
      assert i > 0 ==> base[i] == Lock(SourceRow(rows[i - 1]));
    }
    forall id | id in rows ensures Lock(SourceRow(id)) in base {
      var i :| 0 <= i < |rows| && rows[i] == id;
      assert base[i + 1] == Lock(SourceRow(id));
    }
  }

  lemma ResolveIsOrdered(run: nat, rows: seq<nat>, linked: set<nat>)
    requires Ascending(rows)
    ensures Ordered(Script(ResolveBatch(run, rows, linked)))
  {
    ScanIsOrdered(run, rows);
    LoopKeepsOrder(Fence(run) + Locks(Sources(rows)), rows, |rows|, linked);
    assert rows[..|rows|] == rows;
  }

  lemma HygieneIsTiered(op: Operation)
    requires op.Hygiene?
    ensures Tiered(Script(op))
  {
  }

  lemma ShortScriptIsOrdered(op: Operation)
    requires !op.Decide? && !op.Hygiene? && !op.ResolveBatch?
    ensures Ordered(Script(op))
  {
    var script := Script(op);
    assert |script| <= 5;
    forall i | 0 <= i < |script| ensures Climbs(script, i) || Retake(script, i) {
      if i > 0 && script[i - 1].row == script[i].row { assert Retake(script, i); }
    }
  }

  lemma OperationsAreOrdered(op: Operation)
    requires InIdOrder(op) && !op.Hygiene?
    ensures Ordered(Script(op))
  {
    match op
    case Decide(runs, approvals, owner) => DecideIsOrdered(runs, approvals, owner);
    case ResolveBatch(run, rows, linked) => ResolveIsOrdered(run, rows, linked);
    case _ => ShortScriptIsOrdered(op);
  }

  // ----- any number of them at once -----

  datatype Event = Begin(id: nat, op: Operation) | Grant(id: nat) | End(id: nat)

  ghost predicate Sweeping(txs: Txs) { exists t :: t in txs && txs[t].sweep }

  /**
   * A transaction begins, gets its next lock when nobody blocks it, or ends, at its commit or before.
   * The worker that holds the app's advisory lock runs one reconciler pass at a time.
   */
  ghost function Step(workerLock: bool, txs: Txs, event: Event): Txs {
    match event
    case Begin(id, op) =>
      if id in txs || !InIdOrder(op) || (workerLock && op.Hygiene? && Sweeping(txs)) then txs
      else txs[id := Tx(Script(op), 0, op.Hygiene?)]
    case Grant(id) =>
      if CanGo(txs, id) && txs[id].Wants() then txs[id := txs[id].(granted := txs[id].granted + 1)] else txs
    case End(id) => txs - {id}
  }

  ghost function Run(workerLock: bool, events: seq<Event>): Txs
    decreases |events|
  {
    if events == [] then map[] else Step(workerLock, Run(workerLock, events[..|events| - 1]), events[|events| - 1])
  }

  /** No two transactions hold locks that conflict. */
  ghost predicate Apart(txs: Txs, t: nat, u: nat)
    requires t in txs && u in txs
  {
    forall r, m, n | txs[t].Has(Request(r, m)) && txs[u].Has(Request(r, n)) :: !Conflict(m, n)
  }

  ghost predicate Sound(txs: Txs) {
    (forall t | t in txs ::
       txs[t].granted <= |txs[t].script| && if txs[t].sweep then Tiered(txs[t].script) else Ordered(txs[t].script)) &&
    (forall t, u | t in txs && u in txs && txs[t].sweep && txs[u].sweep :: t == u) &&
    (forall t, u {:trigger Apart(txs, t, u)} | t in txs && u in txs && t != u :: Apart(txs, t, u))
  }

  lemma GrantKeepsSound(txs: Txs, id: nat)
    requires Sound(txs) && CanGo(txs, id) && txs[id].Wants()
    ensures Sound(Step(true, txs, Grant(id)))
  {
    var txs' := Step(true, txs, Grant(id));
    var next := txs[id].Next();
    forall r | txs'[id].Has(r) ensures txs[id].Has(r) || r == next {
      var i :| 0 <= i < txs'[id].granted && txs'[id].script[i] == r;
      assert i < txs[id].granted ==> txs[id].script[i] == r;
    }
    forall t, u | t in txs' && u in txs' && t != u ensures Apart(txs', t, u) {
      assert Apart(txs, t, u) && !Blocks(txs, u, id) && !Blocks(txs, t, id);
    }
  }

  lemma BeginKeepsSound(txs: Txs, id: nat, op: Operation)
    requires Sound(txs) && id !in txs && InIdOrder(op) && !(op.Hygiene? && Sweeping(txs))
    ensures Sound(Step(true, txs, Begin(id, op)))
  {
    var txs' := Step(true, txs, Begin(id, op));
    if op.Hygiene? { HygieneIsTiered(op); } else { OperationsAreOrdered(op); }
    forall t, u | t in txs' && u in txs' && t != u ensures Apart(txs', t, u) {
      if t in txs && u in txs { assert Apart(txs, t, u); }
    }
  }

  lemma {:induction false} RunIsSound(events: seq<Event>)
    ensures Sound(Run(true, events))
    decreases |events|
  {
    if events != [] {
      var txs := Run(true, events[..|events| - 1]);
      RunIsSound(events[..|events| - 1]);
      var txs' := Run(true, events);
      match events[|events| - 1] {
        case Grant(id) => if txs' != txs { GrantKeepsSound(txs, id); }
        case Begin(id, op) => if txs' != txs { BeginKeepsSound(txs, id, op); }
        case _ =>
          forall t, u | t in txs' && u in txs' && t != u ensures Apart(txs', t, u) {
            if t in txs && u in txs { assert Apart(txs, t, u); }
          }
      }
    }
  }

  lemma HeldIsNotBlocked(txs: Txs, t: nat, u: nat, held: Mode)
    requires Sound(txs) && t in txs && txs[t].Wants() && txs[t].Has(Request(txs[t].Next().row, held))
    requires held == Exclusive || txs[t].Next().mode == Share
    ensures !Blocks(txs, u, t)
  {
    if u in txs && u != t {
      var next := txs[t].Next();
      assert Apart(txs, t, u);
      forall m | txs[u].Has(Request(next.row, m)) ensures !Conflict(m, next.mode) { assert !Conflict(held, m); }
    }
  }

  /** A transaction never waits for a lock it holds. */
  lemma RetakesNeverWait(txs: Txs, t: nat)
    requires Sound(txs) && t in txs && txs[t].Wants() && Retake(txs[t].script, txs[t].granted)
    ensures CanGo(txs, t)
  {
    var next := txs[t].Next();
    var j :| 0 <= j < txs[t].granted && txs[t].script[j].row == next.row &&
             (txs[t].script[j].mode == Exclusive || next.mode == Share);
    var held := txs[t].script[j].mode;
    assert txs[t].script[j] == Request(next.row, held) && txs[t].Has(Request(next.row, held));
    forall u ensures !Blocks(txs, u, t) { HeldIsNotBlocked(txs, t, u, held); }
  }

  /** One transaction's next row comes after another's, the sweep's last among equals. */
  predicate Above(t: Tx, u: Tx) {
    t.Wants() && u.Wants() &&
    (Before(t.Next().row, u.Next().row) || (!Before(u.Next().row, t.Next().row) && u.sweep && !t.sweep))
  }

  /** Who blocks a transaction and waits too, waits for a row further on. */
  lemma WaitsClimb(txs: Txs, u: nat, t: nat)
    requires Sound(txs) && Blocks(txs, u, t) && Waits(txs, u)
    ensures Above(txs[t], txs[u])
  {
    var v :| Blocks(txs, v, u);
    var m :| txs[u].Has(Request(txs[t].Next().row, m)) && Conflict(m, txs[t].Next().mode);
    var i :| 0 <= i < txs[u].granted && txs[u].script[i] == Request(txs[t].Next().row, m);
    if !txs[u].sweep {
      var next := txs[u].script[txs[u].granted];
      if Retake(txs[u].script, txs[u].granted) { RetakesNeverWait(txs, u); }
      assert Climbs(txs[u].script, txs[u].granted);
    }
  }

  /** A chain of transactions, each waiting for the next. */
  ghost predicate Chain(txs: Txs, chain: seq<nat>) {
    forall i {:trigger chain[i]} | 0 <= i < |chain| - 1 :: Blocks(txs, chain[i + 1], chain[i])
  }

  lemma AboveIsTransitive(t: Tx, u: Tx, v: Tx)
    requires Above(t, u) && Above(u, v)
    ensures Above(t, v)
  {
  }

  /** A chain but for its last is a chain. */
  lemma ShorterChain(txs: Txs, chain: seq<nat>)
    requires Chain(txs, chain) && |chain| > 0
    ensures Chain(txs, chain[..|chain| - 1])
  {
    var shorter := chain[..|chain| - 1];
    forall i | 0 <= i < |shorter| - 1 ensures Blocks(txs, shorter[i + 1], shorter[i]) {
      assert chain[i] == shorter[i] && Blocks(txs, chain[i + 1], chain[i]);
    }
  }

  lemma {:induction false} ChainsClimb(txs: Txs, chain: seq<nat>)
    requires Sound(txs) && Chain(txs, chain) && |chain| >= 2 && Waits(txs, chain[|chain| - 1])
    ensures chain[0] in txs && chain[|chain| - 1] in txs && Above(txs[chain[0]], txs[chain[|chain| - 1]])
    decreases |chain|
  {
    var n := |chain| - 1;
    var last, next := chain[n], chain[n - 1];
    assert Blocks(txs, chain[n - 1 + 1], chain[n - 1]);
    WaitsClimb(txs, last, next);
    if n > 1 {
      ShorterChain(txs, chain);
      ChainsClimb(txs, chain[..n]);
      AboveIsTransitive(txs[chain[0]], txs[next], txs[last]);
    }
  }

  /** The waits-for graph has no cycle, whatever has begun, been granted and ended. */
  lemma NoDeadlock(events: seq<Event>, cycle: seq<nat>)
    requires |cycle| >= 2 && cycle[0] == cycle[|cycle| - 1]
    ensures !Chain(Run(true, events), cycle)
  {
    var txs := Run(true, events);
    RunIsSound(events);
    if Chain(txs, cycle) {
      assert Blocks(txs, cycle[0 + 1], cycle[0]);
      ChainsClimb(txs, cycle);
    }
  }

  /** So as long as a transaction is open, some transaction is not waiting. */
  lemma SomeoneCanGo(events: seq<Event>) returns (t: nat)
    requires Run(true, events) != map[]
    ensures CanGo(Run(true, events), t)
  {
    var txs := Run(true, events);
    RunIsSound(events);
    assert txs.Keys != {};
    t :| t in txs;
    if Waits(txs, t) { t := EndOfChain(txs, t, {}); }
  }

  lemma {:induction false} EndOfChain(txs: Txs, start: nat, passed: set<nat>) returns (t: nat)
    requires Sound(txs) && start in txs && Waits(txs, start) && passed <= txs.Keys
    requires forall u | u in passed :: Above(txs[u], txs[start])
    ensures CanGo(txs, t)
    decreases txs.Keys - passed
  {
    var u :| Blocks(txs, u, start);
    if !Waits(txs, u) {
      t := u;
    } else {
      WaitsClimb(txs, u, start);
      assert start !in passed;
      t := EndOfChain(txs, u, passed + {start});
    }
  }

  /** One event more of a run without the worker lock. */
  lemma Play(events: seq<Event>, event: Event) returns (longer: seq<Event>)
    ensures Run(false, longer) == Step(false, Run(false, events), event)
  {
    longer := events + [event];
    assert longer[..|events|] == events;
  }

  function Sweeper(calls: seq<nat>, granted: nat): Tx { Tx(Script(Hygiene(calls, [], [])), granted, true) }

  /** Both passes have found a row, and each one's next is the other's. */
  lemma EachHasTheOthers(i: nat, j: nat)
    requires i != j
    ensures var txs := map[0 := Sweeper([i, j], 1), 1 := Sweeper([j, i], 1)];
            Blocks(txs, 1, 0) && Blocks(txs, 0, 1)
  {
    var first, second := Sweeper([i, j], 1), Sweeper([j, i], 1);
    assert first.script[0] == Lock(CallRow(i)) && second.script[0] == Lock(CallRow(j));
    assert first.Next() == Lock(CallRow(j)) && second.Next() == Lock(CallRow(i));
    assert first.Has(Request(second.Next().row, Exclusive)) && second.Has(Request(first.Next().row, Exclusive));
  }

  /** The first statement of each is granted: the rows are different ones. */
  lemma BothGoOnce(i: nat, j: nat)
    requires i != j
    ensures CanGo(map[0 := Sweeper([i, j], 0), 1 := Sweeper([j, i], 0)], 0)
    ensures CanGo(map[0 := Sweeper([i, j], 1), 1 := Sweeper([j, i], 0)], 1)
  {
    var second := map[0 := Sweeper([i, j], 1), 1 := Sweeper([j, i], 0)];
    assert second[0].script[0] == Lock(CallRow(i)) && second[1].Next() == Lock(CallRow(j));
  }

  lemma TwoSweepsBegin(i: nat, j: nat) returns (events: seq<Event>)
    ensures Run(false, events) == map[0 := Sweeper([i, j], 0), 1 := Sweeper([j, i], 0)]
  {
    events := Play([], Begin(0, Hygiene([i, j], [], [])));
    events := Play(events, Begin(1, Hygiene([j, i], [], [])));
  }

  /**
   * Without the worker lock two passes do deadlock: on any two rows, when they meet them from
   * opposite ends of the scan.
   */
  lemma TwoSweepsCanDeadlock(i: nat, j: nat) returns (events: seq<Event>, cycle: seq<nat>)
    requires i != j
    ensures |cycle| >= 2 && cycle[0] == cycle[|cycle| - 1] && Chain(Run(false, events), cycle)
  {
    events := TwoSweepsBegin(i, j);
    BothGoOnce(i, j);
    events := Play(events, Grant(0));
    assert Run(false, events) == map[0 := Sweeper([i, j], 1), 1 := Sweeper([j, i], 0)];
    events := Play(events, Grant(1));
    assert Run(false, events) == map[0 := Sweeper([i, j], 1), 1 := Sweeper([j, i], 1)];
    EachHasTheOthers(i, j);
    cycle := [0, 1, 0];
  }
}
