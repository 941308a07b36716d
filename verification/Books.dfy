// Exact conservation: each period's counter is the sum of the costs on its settled rows, in every
// state any run reaches. `reconcile()` and `/api/status` report the difference and never correct it.
module Books {
  import opened Wrappers
  import opened Tables
  import opened Ledger
  import opened Worlds
  import opened Fences
  import opened Calls
  import opened Sums
  import Actions

  function Cost(db: Db, period: string): Slot -> int {
    (s: Slot) =>
      if s in db.calls && db.calls[s].status.Ok? && db.calls[s].period == period then db.calls[s].status.cost else 0
  }

  /** `SUM(cost_usd)` over the period's `ok` rows. */
  ghost function LedgerTotal(db: Db, period: string): int { Sum(db.calls.Keys, Cost(db, period)) }

  ghost function Drift(db: Db, period: string): int { Spent(db, period) - LedgerTotal(db, period) }

  function Costs(calls: map<Slot, Call>): Slot -> int {
    (s: Slot) => if s in calls && calls[s].status.Ok? then calls[s].status.cost else 0
  }

  /** Drift is the status query's own difference: the counter less the SUM over the period's `ok` rows. */
  lemma DriftIsTheStatements(db: Db, period: string)
    ensures Drift(db, period) ==
            (if period in db.budgets then db.budgets[period].spent else 0) -
            Sum((set s | s in db.calls && db.calls[s].status.Ok? && db.calls[s].period == period), Costs(db.calls))
  {
    var settled := set s | s in db.calls && db.calls[s].status.Ok? && db.calls[s].period == period;
    Restricted(db.calls.Keys, Cost(db, period), settled, Costs(db.calls));
  }

  lemma SameRowsSameDrift(db: Db, db': Db, period: string)
    requires db'.calls.Keys == db.calls.Keys
    requires forall s | s in db.calls :: Cost(db', period)(s) == Cost(db, period)(s)
    requires Spent(db', period) == Spent(db, period)
    ensures Drift(db', period) == Drift(db, period)
  {
    Same(db.calls.Keys, Cost(db, period), Cost(db', period));
  }

  /** One row rewritten and the counter moved by what the row's share moved. */
  lemma RewriteKeepsDrift(db: Db, db': Db, period: string, s: Slot, row: Call)
    requires db'.calls == db.calls[s := row]
    requires Spent(db', period) - Cost(db', period)(s) == Spent(db, period) - Cost(db, period)(s)
    ensures Drift(db', period) == Drift(db, period)
  {
    assert db'.calls.Keys - {s} == db.calls.Keys - {s};
    Changed(db.calls.Keys, Cost(db, period), db'.calls.Keys, Cost(db', period), s);
  }

  /** What a row that is settled already has cost its period. */
  function Settlement(db: Db, s: Slot, period: string): nat {
    if s in db.calls && db.calls[s].status.Ok? && db.calls[s].period == period then db.calls[s].status.cost else 0
  }

  /** A completion moves counter and row together; only a row that was settled before would drift, by what it had cost. */
  lemma CompleteDrifts(db: Db, a: Attempt, key: string, p: string, text: string, cost: nat, period: string)
    requires Fenced(db, a) && p in db.budgets && Slot(a.run, key) in db.calls && db.calls[Slot(a.run, key)].period == p
    ensures Drift(CompleteTx(db, a, key, p, text, cost), period) == Drift(db, period) + Settlement(db, Slot(a.run, key), period)
  {
    var db', s := CompleteTx(db, a, key, p, text, cost), Slot(a.run, key);
    assert db'.calls.Keys - {s} == db.calls.Keys - {s};
    Changed(db.calls.Keys, Cost(db, period), db'.calls.Keys, Cost(db', period), s);
  }

  /** So does a stored error, which moves no counter. */
  lemma ErrorDrifts(db: Db, a: Attempt, key: string, name: string, message: string, period: string)
    requires Fenced(db, a) && Slot(a.run, key) in db.calls
    ensures Drift(ErrorTx(db, a, key, name, message), period) == Drift(db, period) + Settlement(db, Slot(a.run, key), period)
  {
    var db', s := ErrorTx(db, a, key, name, message), Slot(a.run, key);
    assert db'.calls.Keys - {s} == db.calls.Keys - {s};
    Changed(db.calls.Keys, Cost(db, period), db'.calls.Keys, Cost(db', period), s);
  }

  lemma AbandonKeepsDrift(db: Db, period: string)
    ensures Drift(AbandonTx(db), period) == Drift(db, period)
  {
    SameRowsSameDrift(db, AbandonTx(db), period);
  }

  /** Opening a period's row and re-entering a row, even in another month, moves no money. */
  lemma GateKeepsDrift(db: Db, a: Attempt, c: CallRequest, p: string, answer: GateOutcome, period: string)
    requires Slot(a.run, c.key) in db.calls && answer == GateOutcome.Reserved ==>
               !db.calls[Slot(a.run, c.key)].status.Ok?
    ensures Drift(GateTx(db, a, c, p, answer), period) == Drift(db, period)
  {
    var db' := GateTx(db, a, c, p, answer);
    if answer == GateOutcome.Reserved {
      RewriteKeepsDrift(db, db', period, Slot(a.run, c.key), Entered(db, a, c, p));
    } else {
      SameRowsSameDrift(db, db', period);
    }
  }

  lemma RecordKeepsDrift(w: World, a: Attempt, period: string)
    requires Tokened(w) && Ledgered(w)
    ensures Drift(RecordStep(w, a).db, period) == Drift(w.db, period)
  {
    if HasReply(w, a) && Fenced(w.db, a) {
      FenceIsCurrency(w, a);
      var call := w.execs[a].phase;
      assert FlightOk(w, a) && RowOk(w, Slot(a.run, call.key));
      RecordTxKeepsDrift(w.db, a, call, call.stage.reply, period);
    }
  }

  /** What a started row's reply costs is spent in the row's own period. */
  lemma RecordTxKeepsDrift(db: Db, a: Attempt, call: Phase, reply: Reply, period: string)
    requires call.InCall? && Fenced(db, a) && call.period in db.budgets
    requires var s := Slot(a.run, call.key); s in db.calls && db.calls[s].status == Started && db.calls[s].period == call.period
    ensures Drift(RecordTx(db, a, call, reply), period) == Drift(db, period)
  {
    var db', s := RecordTx(db, a, call, reply), Slot(a.run, call.key);
    RewriteKeepsDrift(db, db', period, s, db'.calls[s]);
  }

  lemma HygieneKeepsDrift(db: Db, period: string)
    ensures Drift(Actions.SweepTx(AbandonTx(db)), period) == Drift(db, period)
  {
    SameRowsSameDrift(db, Actions.SweepTx(AbandonTx(db)), period);
  }

  lemma PlainKeepsDrift(w: World, step: Step, period: string)
    requires Plain(step)
    ensures Drift(Next(w, step).db, period) == Drift(w.db, period)
  {
    PlainIsQuiet(w, step);
    SameRowsSameDrift(w.db, Next(w, step).db, period);
  }

  lemma CallStepsMoneyStays(w: World, step: Step)
    requires step.Issue? || step.Return? || step.LoseRecord? || step.Crash?
    ensures Next(w, step).db == w.db
  {
  }

  lemma OvertakingMoneyStays(w: World, step: Step)
    requires step.Bump? || step.Decide? || step.Issue? || step.Return? || step.LoseRecord? || step.Crash?
    ensures var db' := Next(w, step).db; db'.calls == w.db.calls && db'.budgets == w.db.budgets
  {
    match step
    case Bump(run) => assert Bumped(w, {run}).db.budgets == w.db.budgets;
    case Decide(q, scouted) => assert DecideStep(w, q, scouted).db.budgets == w.db.budgets;
    case _ => CallStepsMoneyStays(w, step);
  }

  /** Every other step leaves rows and counters alone; `setBudget` writes only the limit. */
  lemma BystandersSpendNothing(w: World, step: Step, period: string)
    requires !Plain(step) && !step.Gate? && !step.Record? && !step.Hygiene?
    ensures var db' := Next(w, step).db; db'.calls == w.db.calls && Spent(db', period) == Spent(w.db, period)
  {
    if !step.SetBudget? { OvertakingMoneyStays(w, step); }
  }

  lemma BystandersKeepDrift(w: World, step: Step, period: string)
    requires !Plain(step) && !step.Gate? && !step.Record? && !step.Hygiene?
    ensures Drift(Next(w, step).db, period) == Drift(w.db, period)
  {
    BystandersSpendNothing(w, step, period);
    SameRowsSameDrift(w.db, Next(w, step).db, period);
  }

  lemma StepKeepsDrift(w: World, step: Step, period: string)
    requires Tokened(w) && Ledgered(w)
    ensures Drift(Next(w, step).db, period) == Drift(w.db, period)
  {
    match step
    case Gate(a, c, p) =>
      GateStepCommits(w, a, c, p);
      GateKeepsDrift(w.db, a, c, p, GateAnswer(w.db, a, c, p), period);
    case Record(a) => RecordKeepsDrift(w, a, period);
    case Hygiene => HygieneKeepsDrift(w.db, period);
    case _ => if Plain(step) { PlainKeepsDrift(w, step, period); } else { BystandersKeepDrift(w, step, period); }
  }

  /** Drift is zero, period by period, whatever crashed, was bumped, went stale or crossed a month. */
  lemma {:induction false} DriftIsZero(limit: Option<nat>, steps: seq<Step>, period: string)
    ensures Drift(Reached(limit, steps).db, period) == 0
    ensures var db := Reached(limit, steps).db;
            (if period in db.budgets then db.budgets[period].spent else 0) ==
              Sum((set s | s in db.calls && db.calls[s].status.Ok? && db.calls[s].period == period), Costs(db.calls))
    decreases |steps|
  {
    DriftIsTheStatements(Reached(limit, steps).db, period);
    if steps != [] {
      var before := Reached(limit, steps[..|steps| - 1]);
      DriftIsZero(limit, steps[..|steps| - 1], period);
      LedgerIsSound(limit, steps[..|steps| - 1]);
      StepKeepsDrift(before, steps[|steps| - 1], period);
    }
  }
}
