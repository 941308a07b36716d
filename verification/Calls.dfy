// The call ledger over whole runs: what a call in flight may rely on, what a settled row promises,
// and how many provider calls one key can cost.
module Calls {
  import opened Wrappers
  import opened Tables
  import opened Runs
  import opened Ledger
  import opened Approvals
  import opened Worlds
  import opened Fences
  import opened Sums

  /** The run's attempt is on this row, or the row has been settled. */
  predicate Busy(w: World, s: Slot)
    requires s in w.db.calls
  {
    LiveCall(w, s) || w.db.calls[s].Settled()
  }

  /** A call in flight has its row; the current attempt's row is started, in its period, under its token. */
  predicate FlightOk(w: World, a: Attempt)
    requires a in w.execs
  {
    w.execs[a].phase.InCall? ==>
      var s := Slot(a.run, w.execs[a].phase.key);
      s in w.db.calls &&
      (IsCurrent(w, a) ==>
         w.db.calls[s].status == Started && w.db.calls[s].period == w.execs[a].phase.period &&
         w.db.calls[s].workflow == TokenOf(a))
  }

  predicate RowOk(w: World, s: Slot)
    requires s in w.db.calls
  {
    s.run in w.db.runs && w.db.calls[s].period in w.db.budgets && w.db.calls[s].workflow in w.db.workflows &&
    s in w.log.reserved &&
    1 <= w.log.reserved[s] <= Count(w.log.hits, s) + (if Busy(w, s) then 1 else 0) &&
    (w.log.reserved[s] > 1 ==> w.db.calls[s].doubled)
  }

  ghost predicate Ledgered(w: World) {
    (forall a {:trigger FlightOk(w, a)} | a in w.execs :: FlightOk(w, a)) &&
    (forall s {:trigger RowOk(w, s)} | s in w.db.calls :: RowOk(w, s)) &&
    w.log.reserved.Keys <= w.db.calls.Keys
  }

  predicate SameCall(p: Phase, q: Phase) {
    p.InCall? && q.InCall? && p.key == q.key && p.period == q.period && p.estimate == q.estimate &&
    (q.stage == Held ==> p.stage == Held)
  }

  /** No row moved, no call started, and every live call that ended was hit. */
  ghost predicate OnlyHits(w: World, w': World) {
    w'.db.calls == w.db.calls && w.db.budgets.Keys <= w'.db.budgets.Keys &&
    w'.log.reserved == w.log.reserved && w.db.runs.Keys <= w'.db.runs.Keys && w.db.workflows <= w'.db.workflows &&
    (forall a | a in w'.execs && w'.execs[a].phase.InCall? ::
       a in w.execs && SameCall(w.execs[a].phase, w'.execs[a].phase) && (IsCurrent(w', a) ==> IsCurrent(w, a))) &&
    (forall s | s in w.db.calls ::
       Count(w.log.hits, s) + (if LiveCall(w, s) && !LiveCall(w', s) then 1 else 0) <= Count(w'.log.hits, s))
  }

  lemma HitsKeepLedgered(w: World, w': World)
    requires Ledgered(w) && OnlyHits(w, w')
    ensures Ledgered(w')
  {
    forall a | a in w'.execs ensures FlightOk(w', a) {
      if w'.execs[a].phase.InCall? { assert FlightOk(w, a); }
    }
    forall s | s in w'.db.calls ensures RowOk(w', s) { assert RowOk(w, s); }
  }

  lemma QuietKeepsLedgered(w: World, w': World)
    requires Tokened(w) && Ledgered(w) && LedgerQuiet(w, w')
    ensures Ledgered(w')
  {
    forall a | a in w'.execs && w'.execs[a].phase.InCall? ensures IsCurrent(w', a) ==> IsCurrent(w, a) {
      assert ExecOk(w, a);
    }
    forall s | s in w.db.calls ensures LiveCall(w, s) ==> LiveCall(w', s) {}
    HitsKeepLedgered(w, w');
  }

  /** The current attempt's row settles and the attempt goes on. */
  lemma SettlingKeepsLedgered(w: World, a: Attempt, row: Call, w': World)
    requires Tokened(w) && Ledgered(w)
    requires a in w.execs && w.execs[a].phase.InCall? && IsCurrent(w, a)
    requires var s := Slot(a.run, w.execs[a].phase.key);
             s in w.db.calls && row == w.db.calls[s].(status := row.status) && row.Settled() &&
             w'.db.calls == w.db.calls[s := row]
    requires w'.db.runs == w.db.runs && w'.db.budgets.Keys == w.db.budgets.Keys
    requires w'.db.workflows == w.db.workflows
    requires w'.log.reserved == w.log.reserved && w'.log.hits == w.log.hits
    requires a in w'.execs && w'.execs[a].phase == Idle && w'.execs == w.execs[a := w'.execs[a]]
    ensures Ledgered(w')
  {
    var s := Slot(a.run, w.execs[a].phase.key);
    forall b | b in w'.execs ensures FlightOk(w', b) { assert b != a ==> FlightOk(w, b); }
    forall r | r in w'.db.calls ensures RowOk(w', r) {
      assert RowOk(w, r);
      assert r != s ==> (LiveCall(w, r) <==> LiveCall(w', r));
    }
  }

  lemma RefusalOnlyHits(w: World, a: Attempt, c: CallRequest, period: string)
    requires GateAnswer(w.db, a, c, period) != GateOutcome.Reserved
    ensures OnlyHits(w, GateStep(w, a, c, period))
  {
  }

  /** The steps that never move the ledger. */
  predicate Plain(step: Step) {
    !step.Gate? && !step.Record? && !step.LoseRecord? && !step.Crash? && !step.Bump? && !step.Decide? && !step.Hygiene? &&
    !step.Issue? && !step.Return? && !step.SetBudget?
  }

  lemma PlainIsQuiet(w: World, step: Step)
    requires Plain(step)
    ensures LedgerQuiet(w, Next(w, step))
  {
  }

  lemma ReserveKeepsLedgered(w: World, a: Attempt, c: CallRequest, period: string)
    requires Tokened(w) && Ledgered(w)
    requires GateAnswer(w.db, a, c, period) == GateOutcome.Reserved
    ensures Ledgered(GateStep(w, a, c, period))
  {
    if IsIdle(w, a) {
      var w' := GateStep(w, a, c, period);
      var s := Slot(a.run, c.key);
      FenceIsCurrency(w, a);
      assert TokenOk(w.db, a.run);
      forall b | b in w'.execs ensures FlightOk(w', b) { assert b != a ==> FlightOk(w, b); }
      forall r | r in w'.db.calls ensures RowOk(w', r) {
        assert r in w.db.calls ==> RowOk(w, r);
        assert r != s ==> (LiveCall(w, r) <==> LiveCall(w', r));
      }
    }
  }

  lemma RecordKeepsLedgered(w: World, a: Attempt)
    requires Tokened(w) && Ledgered(w)
    ensures Ledgered(RecordStep(w, a))
  {
    var w' := RecordStep(w, a);
    FenceIsCurrency(w, a);
    if HasReply(w, a) {
      assert FlightOk(w, a);
      if Fenced(w.db, a) {
        SettlingKeepsLedgered(w, a, w'.db.calls[Slot(a.run, w.execs[a].phase.key)], w');
      } else {
        HitsKeepLedgered(w, w');
      }
    }
  }

  lemma LossKeepsLedgered(w: World, a: Attempt)
    requires Tokened(w) && Ledgered(w)
    ensures Ledgered(Lost(w, a))
  {
    var w' := Lost(w, a);
    forall s | s in w.db.calls
      ensures Count(w.log.hits, s) + (if LiveCall(w, s) && !LiveCall(w', s) then 1 else 0) <= Count(w'.log.hits, s)
    {
      assert RowOk(w, s);
    }
    HitsKeepLedgered(w, w');
  }

  lemma BumpHitsLiveCalls(w: World, runs: set<string>, w': World, s: Slot)
    requires Ledgered(w) && s in w.db.calls
    requires w'.db.runs == Bumped(w, runs).db.runs && w'.execs == w.execs && w'.log == Bumped(w, runs).log
    ensures Count(w.log.hits, s) + (if LiveCall(w, s) && !LiveCall(w', s) then 1 else 0) <= Count(w'.log.hits, s)
  {
    assert RowOk(w, s);
  }

  lemma BumpKeepsLedgered(w: World, runs: set<string>, w': World)
    requires Tokened(w) && Ledgered(w)
    requires w'.db.runs == Bumped(w, runs).db.runs && w'.db.calls == w.db.calls && w'.db.budgets == w.db.budgets
    requires w'.db.workflows == Bumped(w, runs).db.workflows
    requires w'.execs == w.execs && w'.log == Bumped(w, runs).log
    ensures Ledgered(w')
  {
    forall a | a in w.execs && IsCurrent(w', a) ensures IsCurrent(w, a) { assert ExecOk(w, a); }
    forall s | s in w.db.calls
      ensures Count(w.log.hits, s) + (if LiveCall(w, s) && !LiveCall(w', s) then 1 else 0) <= Count(w'.log.hits, s)
    {
      BumpHitsLiveCalls(w, runs, w', s);
    }
    HitsKeepLedgered(w, w');
  }

  /** The sweep never touches a row the current attempt can still complete, nor a settled one. */
  lemma HygieneKeepsFlight(w: World, a: Attempt)
    requires Tokened(w) && a in w.execs && FlightOk(w, a)
    ensures FlightOk(Next(w, Hygiene), a)
  {
    assert ExecOk(w, a);
    TokenHolds(w, a);
  }

  lemma HygieneKeepsLedgered(w: World)
    requires Tokened(w) && Ledgered(w)
    ensures Ledgered(Next(w, Hygiene))
  {
    var w' := Next(w, Hygiene);
    forall a | a in w'.execs ensures FlightOk(w', a) { assert FlightOk(w, a); HygieneKeepsFlight(w, a); }
    forall s | s in w'.db.calls ensures RowOk(w', s) {
      assert RowOk(w, s);
      assert LiveCall(w, s) <==> LiveCall(w', s);
    }
  }

  lemma TokenHolds(w: World, a: Attempt)
    requires Tokened(w) && a in w.execs
    ensures IsCurrent(w, a) ==> w.db.runs[a.run].current == TokenOf(a)
  {
    FenceIsCurrency(w, a);
  }

  lemma PlainKeepsLedgered(w: World, step: Step)
    requires Tokened(w) && Ledgered(w) && Plain(step)
    ensures Ledgered(Next(w, step))
  {
    PlainIsQuiet(w, step);
    QuietKeepsLedgered(w, Next(w, step));
  }

  lemma GateKeepsLedgered(w: World, a: Attempt, c: CallRequest, period: string)
    requires Tokened(w) && Ledgered(w)
    ensures Ledgered(GateStep(w, a, c, period))
  {
    if GateAnswer(w.db, a, c, period) == GateOutcome.Reserved {
      ReserveKeepsLedgered(w, a, c, period);
    } else {
      RefusalOnlyHits(w, a, c, period);
      HitsKeepLedgered(w, GateStep(w, a, c, period));
    }
  }

  lemma BystandersOnlyHit(w: World, step: Step)
    requires step.SetBudget? || step.Issue? || step.Return?
    ensures OnlyHits(w, Next(w, step))
  {
  }

  lemma BystandersKeepLedgered(w: World, step: Step)
    requires Tokened(w) && Ledgered(w) && (step.SetBudget? || step.Issue? || step.Return?)
    ensures Ledgered(Next(w, step))
  {
    BystandersOnlyHit(w, step);
    HitsKeepLedgered(w, Next(w, step));
  }

  lemma OvertakingKeepsLedgered(w: World, step: Step)
    requires Tokened(w) && Ledgered(w) && (step.Bump? || step.Decide?)
    ensures Ledgered(Next(w, step))
  {
    if Next(w, step) != w { BumpKeepsLedgered(w, if step.Bump? then {step.run} else step.scouted, Next(w, step)); }
  }

  /** The steps of an attempt in a call. */
  lemma CallStepKeepsLedgered(w: World, step: Step)
    requires Tokened(w) && Ledgered(w) && (step.Gate? || step.Record? || step.LoseRecord? || step.Crash?)
    ensures Ledgered(Next(w, step))
  {
    match step
    case Gate(a, c, period) => GateKeepsLedgered(w, a, c, period);
    case Record(a) => RecordKeepsLedgered(w, a);
    case LoseRecord(a) => LossKeepsLedgered(w, a);
    case Crash(a) => LossKeepsLedgered(w, a);
  }

  lemma StepKeepsLedgered(w: World, step: Step)
    requires Tokened(w) && Ledgered(w)
    ensures Ledgered(Next(w, step))
  {
    if step.Gate? || step.Record? || step.LoseRecord? || step.Crash? {
      CallStepKeepsLedgered(w, step);
    } else if step.Bump? || step.Decide? {
      OvertakingKeepsLedgered(w, step);
    } else if step.Hygiene? {
      HygieneKeepsLedgered(w);
    } else if Plain(step) {
      PlainKeepsLedgered(w, step);
    } else {
      BystandersKeepLedgered(w, step);
    }
  }

  /** A row is never dropped, its flag never clears, and once settled it never changes again. */
  predicate Persists(db: Db, db': Db, s: Slot)
    requires s in db.calls
  {
    s in db'.calls && (db.calls[s].doubled ==> db'.calls[s].doubled) &&
    (db.calls[s].Settled() ==> db'.calls[s] == db.calls[s])
  }

  lemma GatePersists(db: Db, a: Attempt, c: CallRequest, period: string, s: Slot)
    requires s in db.calls
    ensures Persists(db, GateTx(db, a, c, period, GateAnswer(db, a, c, period)), s)
  {
  }

  lemma RecordPersists(w: World, a: Attempt, s: Slot)
    requires Tokened(w) && Ledgered(w) && s in w.db.calls
    ensures Persists(w.db, RecordStep(w, a).db, s)
  {
    if HasReply(w, a) && Fenced(w.db, a) {
      FenceIsCurrency(w, a);
      assert FlightOk(w, a);
    }
  }

  /** The rest of the ledger's steps move executions, budgets or runs, never rows. */
  lemma BystandersPersist(w: World, step: Step, s: Slot)
    requires s in w.db.calls && !Plain(step) && !step.Gate? && !step.Record? && !step.Hygiene?
    ensures Persists(w.db, Next(w, step).db, s)
  {
    hide OthersGoOn;
    hide SameRuns;
    hide InboxQuiet;
    hide OutboxStays;
  }

  lemma LedgerStepPersists(w: World, step: Step, s: Slot)
    requires Tokened(w) && Ledgered(w) && s in w.db.calls && (step.Record? || step.Gate?)
    ensures Persists(w.db, Next(w, step).db, s)
  {
    match step
    case Record(a) => RecordPersists(w, a, s);
    case Gate(a, c, period) => GatePersists(w.db, a, c, period, s);
  }

  lemma PlainPersists(w: World, step: Step, s: Slot)
    requires s in w.db.calls && Plain(step)
    ensures Persists(w.db, Next(w, step).db, s)
  {
    PlainIsQuiet(w, step);
  }

  lemma HygienePersists(w: World, s: Slot)
    requires s in w.db.calls
    ensures Persists(w.db, Next(w, Hygiene).db, s)
  {
  }

  lemma RowsPersist(w: World, step: Step, s: Slot)
    requires Tokened(w) && Ledgered(w) && s in w.db.calls
    ensures Persists(w.db, Next(w, step).db, s)
  {
    match step
    case Record(_) => LedgerStepPersists(w, step, s);
    case Gate(_, _, _) => LedgerStepPersists(w, step, s);
    case Hygiene => HygienePersists(w, s);
    case _ => if Plain(step) { PlainPersists(w, step, s); } else { BystandersPersist(w, step, s); }
  }

  lemma {:induction false} LedgerIsSound(limit: Option<nat>, steps: seq<Step>)
    ensures Tokened(Reached(limit, steps)) && Ledgered(Reached(limit, steps))
    decreases |steps|
  {
    RunsAreTokened(limit, steps);
    if steps != [] {
      var before := Reached(limit, steps[..|steps| - 1]);
      LedgerIsSound(limit, steps[..|steps| - 1]);
      StepKeepsLedgered(before, steps[|steps| - 1]);
    }
  }
}
