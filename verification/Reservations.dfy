// The gate's own bound, stated the way the gate computes it: spent plus every row the SQL
// reservation counts. It needs two assumptions more than the money does: about workflows executed again
// and about rows re-entered with a lower estimate.
module Reservations {
  import opened Wrappers
  import opened Tokens
  import opened Tables
  import opened Runs
  import opened Ledger
  import opened Approvals
  import opened Worlds
  import opened Fences
  import opened Calls
  import opened Sums
  import opened Books
  import opened Spending
  import Actions

  /** The SQL reservation over every row of the period. */
  ghost function Reserved(db: Db, period: string): int { Sum(db.calls.Keys, Hold(db, period)) }

  ghost predicate ReservationsFit(db: Db, period: string) {
    period in db.budgets ==> Spent(db, period) + Reserved(db, period) <= Limit(db, period)
  }

  /**
   * Beyond a careful step: a re-entering gate asks for exactly the row's estimate, and a workflow
   * that already concluded its run is not executed again.
   */
  predicate Strict(w: World, step: Step) {
    Careful(w, step) &&
    match step
    case Gate(a, c, _) => Slot(a.run, c.key) in w.db.calls ==> c.estimate == w.db.calls[Slot(a.run, c.key)].estimate
    case Claim(a) => Fenced(w.db, a) ==> w.db.runs[a.run].status == Running
    case _ => true
  }

  ghost predicate StrictRun(limit: Option<nat>, steps: seq<Step>) {
    forall i | 0 <= i < |steps| :: Strict(Reached(limit, steps[..i]), steps[i])
  }

  /** No row starts to hold, no money moves, no budget shrinks. */
  lemma FewerHoldsFit(w: World, db': Db, period: string)
    requires Ledgered(w) && ReservationsFit(w.db, period)
    requires db'.calls.Keys == w.db.calls.Keys
    requires forall s | s in w.db.calls :: Hold(db', period)(s) <= Hold(w.db, period)(s)
    requires Spent(db', period) == Spent(w.db, period)
    requires period in w.db.budgets && period in db'.budgets ==> Limit(w.db, period) <= Limit(db', period)
    ensures ReservationsFit(db', period)
  {
    Monotone(w.db.calls.Keys, Hold(db', period), Hold(w.db, period));
    if period !in w.db.budgets { NothingHeldBeforeFirstGate(w, period); }
  }

  /** No run leaves its attempt for the row's, and none starts running again. */
  ghost predicate RunsHoldNoMore(db: Db, db': Db) {
    forall r | r in db.runs ::
      r in db'.runs && (db'.runs[r].current == db.runs[r].current || db'.runs[r].current !in db.workflows) &&
      (db'.runs[r].current == db.runs[r].current && db'.runs[r].status == Running ==> db.runs[r].status == Running)
  }

  lemma StepHoldsNoMoreRuns(w: World, step: Step)
    requires Tokened(w) && Strict(w, step)
    ensures RunsHoldNoMore(w.db, Next(w, step).db)
  {
    forall r | r in w.db.runs ensures TokenOk(w.db, r) {}
    if !step.Start? && !step.Claim? && !step.Conclude? && !step.MarkEnded? && !step.Suspend? && !step.Bump? && !step.Decide? {
      OtherStepsKeepRuns(w, step);
    } else {
      RunStepsHoldNoMore(w, step);
    }
  }

  lemma StatusStepsHoldNoMore(w: World, step: Step)
    requires Strict(w, step) && (step.Claim? || step.Conclude? || step.MarkEnded? || step.Suspend?)
    ensures RunsHoldNoMore(w.db, Next(w, step).db)
  {
  }

  lemma RunStepsHoldNoMore(w: World, step: Step)
    requires Strict(w, step) && forall r | r in w.db.runs :: w.db.runs[r].current in w.db.workflows
    requires step.Start? || step.Claim? || step.Conclude? || step.MarkEnded? || step.Suspend? || step.Bump? || step.Decide?
    ensures RunsHoldNoMore(w.db, Next(w, step).db)
  {
    match step
    case Start(run, sameFlow) => assert RunsHoldNoMore(w.db, StartTx(w.db, run, sameFlow));
    case Bump(run) => BumpHoldsNoMore(w, {run});
    case Decide(q, scouted) => DecideHoldsNoMore(w, q, scouted);
    case _ => StatusStepsHoldNoMore(w, step);
  }

  lemma BumpHoldsNoMore(w: World, runs: set<string>)
    requires forall r | r in w.db.runs :: w.db.runs[r].current in w.db.workflows
    ensures RunsHoldNoMore(w.db, Bumped(w, runs).db)
  {
  }

  lemma DecideHoldsNoMore(w: World, q: DecideRequest, scouted: set<string>)
    requires forall r | r in w.db.runs :: w.db.runs[r].current in w.db.workflows
    ensures RunsHoldNoMore(w.db, DecideStep(w, q, scouted).db)
  {
  }

  lemma SameRowsFit(w: World, db': Db, period: string)
    requires Ledgered(w) && ReservationsFit(w.db, period) && RunsHoldNoMore(w.db, db')
    requires db'.calls == w.db.calls && Spent(db', period) == Spent(w.db, period)
    requires period in w.db.budgets && period in db'.budgets ==> Limit(w.db, period) <= Limit(db', period)
    ensures ReservationsFit(db', period)
  {
    forall s | s in w.db.calls ensures Hold(db', period)(s) <= Hold(w.db, period)(s) { assert RowOk(w, s); }
    FewerHoldsFit(w, db', period);
  }

  lemma ReservingFitsRows(w: World, a: Attempt, c: CallRequest, p: string, period: string)
    requires Ledgered(w) && ReservationsFit(w.db, period) && Strict(w, Gate(a, c, p))
    requires GateAnswer(w.db, a, c, p) == GateOutcome.Reserved
    ensures ReservationsFit(GateTx(w.db, a, c, p, GateOutcome.Reserved), period)
  {
    var db' := GateTx(w.db, a, c, p, GateOutcome.Reserved);
    var s := Slot(a.run, c.key);
    var others := w.db.calls.Keys - {s};
    assert db'.calls.Keys - {s} == others;
    Same(others, Hold(w.db, period), Hold(db', period));
    Split(db'.calls.Keys, Hold(db', period), s);
    if s in w.db.calls { Split(w.db.calls.Keys, Hold(w.db, period), s); } else { assert others == w.db.calls.Keys; }
  }

  lemma RecordingFitsRows(w: World, a: Attempt, period: string)
    requires Tokened(w) && Ledgered(w) && AllPriced(w) && ReservationsFit(w.db, period)
    ensures ReservationsFit(RecordStep(w, a).db, period)
  {
    var db' := RecordStep(w, a).db;
    FenceIsCurrency(w, a);
    if HasReply(w, a) && Fenced(w.db, a) {
      var s := Slot(a.run, w.execs[a].phase.key);
      assert FlightOk(w, a) && Priced(w, a) && RowOk(w, s) && ExecOk(w, a) && TokenOk(w.db, a.run);
      assert db'.calls.Keys == w.db.calls.Keys;
      Changed(w.db.calls.Keys, Hold(w.db, period), db'.calls.Keys, Hold(db', period), s);
    }
  }

  lemma HygieneFitsRows(w: World, period: string)
    requires Ledgered(w) && ReservationsFit(w.db, period)
    ensures ReservationsFit(Next(w, Hygiene).db, period)
  {
    FewerHoldsFit(w, Next(w, Hygiene).db, period);
  }

  lemma OtherStepsFitRows(w: World, step: Step, period: string)
    requires Tokened(w) && Ledgered(w) && ReservationsFit(w.db, period) && Strict(w, step)
    requires !step.Gate? && !step.Record? && !step.Hygiene?
    ensures ReservationsFit(Next(w, step).db, period)
  {
    StepHoldsNoMoreRuns(w, step);
    MoneyStays(w, step, period);
    SameRowsFit(w, Next(w, step).db, period);
  }

  lemma PlainMoneyStays(w: World, step: Step, period: string)
    requires Plain(step)
    ensures var db' := Next(w, step).db; db'.calls == w.db.calls && db'.budgets == w.db.budgets
  {
    PlainIsQuiet(w, step);
  }

  lemma MoneyStays(w: World, step: Step, period: string)
    requires Strict(w, step) && !step.Gate? && !step.Record? && !step.Hygiene?
    ensures var db' := Next(w, step).db;
            db'.calls == w.db.calls && Spent(db', period) == Spent(w.db, period) &&
            (period in w.db.budgets && period in db'.budgets ==> Limit(w.db, period) <= Limit(db', period))
  {
    if Plain(step) {
      PlainMoneyStays(w, step, period);
    } else if !step.SetBudget? {
      OvertakingMoneyStays(w, step);
    }
  }

  lemma GateFitsRows(w: World, a: Attempt, c: CallRequest, p: string, period: string)
    requires Tokened(w) && Ledgered(w) && ReservationsFit(w.db, period) && Strict(w, Gate(a, c, p))
    ensures ReservationsFit(GateStep(w, a, c, p).db, period)
  {
    GateStepCommits(w, a, c, p);
    if IsIdle(w, a) && GateAnswer(w.db, a, c, p) == GateOutcome.Reserved {
      ReservingFitsRows(w, a, c, p, period);
    } else {
      SameRowsFit(w, GateStep(w, a, c, p).db, period);
    }
  }

  lemma StepKeepsReservations(w: World, step: Step, period: string)
    requires Tokened(w) && Ledgered(w) && AllPriced(w) && ReservationsFit(w.db, period) && Strict(w, step)
    ensures ReservationsFit(Next(w, step).db, period)
  {
    match step
    case Gate(a, c, p) => GateFitsRows(w, a, c, p, period);
    case Record(a) => RecordingFitsRows(w, a, period);
    case Hygiene => HygieneFitsRows(w, period);
    case _ => OtherStepsFitRows(w, step, period);
  }

  lemma StrictIsCareful(limit: Option<nat>, steps: seq<Step>)
    requires StrictRun(limit, steps)
    ensures CarefulRun(limit, steps)
  {
    forall i | 0 <= i < |steps| ensures Careful(Reached(limit, steps[..i]), steps[i]) {
      assert Strict(Reached(limit, steps[..i]), steps[i]);
    }
  }

  lemma StrictPrefix(limit: Option<nat>, steps: seq<Step>)
    requires StrictRun(limit, steps) && steps != []
    ensures StrictRun(limit, steps[..|steps| - 1])
    ensures Strict(Reached(limit, steps[..|steps| - 1]), steps[|steps| - 1])
  {
    assert forall i | 0 <= i < |steps| - 1 :: steps[..|steps| - 1][..i] == steps[..i];
  }

  /** Spent plus live reservations never exceeds a period's budget, in every state a strict run reaches. */
  lemma {:induction false} ReservationsAlwaysFit(limit: Option<nat>, steps: seq<Step>, period: string)
    requires StrictRun(limit, steps)
    ensures ReservationsFit(Reached(limit, steps).db, period)
    decreases |steps|
  {
    if steps != [] {
      StrictPrefix(limit, steps);
      ReservationsAlwaysFit(limit, steps[..|steps| - 1], period);
      StrictIsCareful(limit, steps[..|steps| - 1]);
      CarefulIsPriced(limit, steps[..|steps| - 1]);
      LedgerIsSound(limit, steps[..|steps| - 1]);
      StepKeepsReservations(Reached(limit, steps[..|steps| - 1]), steps[|steps| - 1], period);
    }
  }

  // ----- the workflow that is executed again after it concluded its run -----

  /** Rows of the claimed attempt that a run out of `running` had stopped holding back. */
  function Revival(db: Db, a: Attempt, period: string): Slot -> int {
    (s: Slot) =>
      if s.run == a.run && !Holds(db, period, s) && Holds(StatusTx(db, a, Running), period, s)
      then db.calls[s].estimate else 0
  }

  ghost function Revived(db: Db, a: Attempt, period: string): int {
    Sum(db.calls.Keys, Revival(db, a, period))
  }

  /** A claim brings back exactly the reservations of the attempt it claims. */
  lemma ClaimRevives(db: Db, a: Attempt, period: string)
    ensures Reserved(StatusTx(db, a, Running), period) == Reserved(db, period) + Revived(db, a, period)
  {
    Added(db.calls.Keys, Hold(db, period), Revival(db, a, period), Hold(StatusTx(db, a, Running), period));
  }

  /** So the bound survives a claim exactly when the period has room for what comes back. */
  lemma ClaimFitsExactly(db: Db, a: Attempt, period: string)
    requires period in db.budgets
    ensures ReservationsFit(StatusTx(db, a, Running), period) <==>
            Revived(db, a, period) <= Limit(db, period) - Spent(db, period) - Reserved(db, period)
  {
    ClaimRevives(db, a, period);
  }

  /** A run reserves for a call. */
  lemma OneReserves() returns (steps: seq<Step>, w: World)
    ensures w == Reached(Some(9), steps) && CarefulRun(Some(9), steps)
    ensures w.db == Init(Some(9)).db.(
              runs := map["a" := Run(1, "a", Running)], workflows := {"a"}, budgets := map["2026-01" := Budget(9, 0)],
              calls := map[Slot("a", "k") := Call("a", "2026-01", "h", 5, Started, false)])
    ensures w.execs.Keys == {Attempt("a", 1)} && w.stranded == {}
  {
    steps := OneRun(Some(9), "a");
    w := Reached(Some(9), steps);
    assert ReservedBeside(w.db, "2026-01", Slot("a", "k")) == 0;
    steps, w := PlayGate(Some(9), steps, Attempt("a", 1), CallRequest("k", "h", 5), "2026-01");
  }

  /** Its process dies in it, and it is executed again. */
  lemma CrashedMidCall() returns (steps: seq<Step>, w: World)
    ensures w == Reached(Some(9), steps) && CarefulRun(Some(9), steps)
    ensures w.db == Init(Some(9)).db.(
              runs := map["a" := Run(1, "a", Running)], workflows := {"a"}, budgets := map["2026-01" := Budget(9, 0)],
              calls := map[Slot("a", "k") := Call("a", "2026-01", "h", 5, Started, false)])
    ensures w.execs == map[Attempt("a", 1) := Exec(Idle, [])] && w.stranded == {}
  {
    steps, w := OneReserves();
    steps, w := PlayRecovery(Some(9), steps, Attempt("a", 1));
  }

  /** A run fails with its call unrecorded. */
  lemma FailedMidCall() returns (steps: seq<Step>, w: World)
    ensures w == Reached(Some(9), steps) && CarefulRun(Some(9), steps)
    ensures w.db == Init(Some(9)).db.(
              runs := map["a" := Run(1, "a", Failed)], workflows := {"a"}, budgets := map["2026-01" := Budget(9, 0)],
              calls := map[Slot("a", "k") := Call("a", "2026-01", "h", 5, Started, false)])
    ensures w.execs == map[] && w.stranded == {}
  {
    steps, w := CrashedMidCall();
    steps, w := Play(Some(9), steps, Conclude(Attempt("a", 1), Failed));
  }

  lemma AnotherStarts() returns (steps: seq<Step>, w: World)
    ensures w == Reached(Some(9), steps) && CarefulRun(Some(9), steps)
    ensures w.db == Init(Some(9)).db.(
              runs := map["a" := Run(1, "a", Failed), "b" := Run(1, "b", Running)], workflows := {"a", "b"},
              budgets := map["2026-01" := Budget(9, 0)],
              calls := map[Slot("a", "k") := Call("a", "2026-01", "h", 5, Started, false)])
    ensures w.execs == map[Attempt("b", 1) := Exec(Idle, [])] && w.stranded == {}
  {
    steps, w := FailedMidCall();
    steps, w := PlayRun(Some(9), steps, "b");
  }

  /** Another run then takes the budget the failed one had reserved. */
  lemma BudgetTakenMeanwhile() returns (steps: seq<Step>, w: World)
    ensures w == Reached(Some(9), steps) && CarefulRun(Some(9), steps)
    ensures w.db.runs == map["a" := Run(1, "a", Failed), "b" := Run(1, "b", Running)]
    ensures w.db.budgets == map["2026-01" := Budget(9, 0)] && w.execs.Keys == {Attempt("b", 1)} && w.stranded == {}
    ensures w.db.calls == map[Slot("a", "k") := Call("a", "2026-01", "h", 5, Started, false),
                              Slot("b", "k") := Call("b", "2026-01", "h", 5, Started, false)]
  {
    var b, call := Attempt("b", 1), CallRequest("k", "h", 5);
    steps, w := AnotherStarts();
    assert w.db.calls.Keys - {Slot("b", "k")} == {Slot("a", "k")};
    Single(Hold(w.db, "2026-01"), Slot("a", "k"));
    steps, w := PlayGate(Some(9), steps, b, call, "2026-01");
  }

  /**
   * And it can lack that room: an attempt fails with its call unrecorded, another run takes the
   * budget it had reserved, and DBOS executes the failed workflow again.
   */
  lemma ClaimCanOverReserve() returns (steps: seq<Step>, w: World)
    ensures w == Reached(Some(9), steps) && CarefulRun(Some(9), steps)
    ensures !ReservationsFit(w.db, "2026-01")
  {
    steps, w := BudgetTakenMeanwhile();
    steps, w := Play(Some(9), steps, Claim(Attempt("a", 1)));
    assert w.db.calls.Keys - {Slot("b", "k")} == {Slot("a", "k")};
    Split(w.db.calls.Keys, Hold(w.db, "2026-01"), Slot("b", "k"));
    Single(Hold(w.db, "2026-01"), Slot("a", "k"));
  }

  // ----- the row that is re-entered with a lower estimate -----

  /** A re-entered row holds back its stored estimate again, whatever the gate was asked for. */
  lemma ReentryReserves(db: Db, a: Attempt, c: CallRequest, period: string)
    requires Slot(a.run, c.key) in db.calls && GateAnswer(db, a, c, period) == GateOutcome.Reserved
    ensures var s := Slot(a.run, c.key);
            Reserved(GateTx(db, a, c, period, GateOutcome.Reserved), period) ==
            ReservedBeside(db, period, s) + if db.runs[a.run].status == Running then db.calls[s].estimate else 0
  {
    var db', s := GateTx(db, a, c, period, GateOutcome.Reserved), Slot(a.run, c.key);
    assert db'.calls.Keys == db.calls.Keys;
    Split(db'.calls.Keys, Hold(db', period), s);
    Same(db.calls.Keys - {s}, Hold(db, period), Hold(db', period));
  }

  /**
   * So the bound survives a re-entry exactly when the period has room for the row's stored estimate.
   * The gate looked for room for the one it was asked for, which is enough if that is no lower.
   */
  lemma ReentryFitsExactly(db: Db, a: Attempt, c: CallRequest, period: string)
    requires Slot(a.run, c.key) in db.calls && GateAnswer(db, a, c, period) == GateOutcome.Reserved
    requires db.runs[a.run].status == Running
    ensures var s := Slot(a.run, c.key); var db' := GateTx(db, a, c, period, GateOutcome.Reserved);
            (ReservationsFit(db', period) <==>
               db.calls[s].estimate <= Limit(db', period) - Spent(db, period) - ReservedBeside(db, period, s)) &&
            (db.calls[s].estimate <= c.estimate ==> ReservationsFit(db', period))
  {
    ReentryReserves(db, a, c, period);
  }

  lemma FirstOfTwoMoves(db: Db)
    requires db.runs == map["a" := Run(1, "a", Running), "b" := Run(1, "b", Running)] && db.workflows == {"a", "b"}
    ensures CanBump(db, {"a"})
    ensures BumpTx(db, {"a"}) == db.(
              runs := map["a" := Run(2, AttemptToken("a", 2), Running), "b" := Run(1, "b", Running)],
              workflows := {"a", "b", AttemptToken("a", 2)})
  {
    TokenNamesAttempt("a", 2, 1);
    ColonFreeTokensDiffer("a", 2, "b", 1);
  }

  /** A run reserves `stored` for a call, and a bump leaves the row to an attempt that is over. */
  lemma LeftBehind(stored: nat) returns (steps: seq<Step>, w: World)
    ensures w == Reached(Some(stored), steps) && CarefulRun(Some(stored), steps)
    ensures w.db == Init(Some(stored)).db.(
              runs := map["a" := Run(2, AttemptToken("a", 2), Running), "b" := Run(1, "b", Running)],
              workflows := {"a", "b", AttemptToken("a", 2)}, budgets := map["2026-01" := Budget(stored, 0)],
              calls := map[Slot("a", "k") := Call("a", "2026-01", "h", stored, Started, false)])
    ensures var a, b := Attempt("a", 2), Attempt("b", 1);
            a in w.execs && w.execs[a] == Exec(Idle, []) && b in w.execs && w.execs[b] == Exec(Idle, [])
  {
    steps, w := FirstInCall(stored, stored);
    FirstOfTwoMoves(w.db);
    steps, w := PlayOvertake(Some(stored), steps, "a");
  }

  /** A gate that has all of the budget but `lower` to reserve passes: the row left behind holds nothing back. */
  lemma RestFits(db: Db, stored: nat, lower: nat)
    requires lower < stored && !db.paused
    requires db.runs == map["a" := Run(2, AttemptToken("a", 2), Running), "b" := Run(1, "b", Running)]
    requires db.budgets == map["2026-01" := Budget(stored, 0)]
    requires db.calls == map[Slot("a", "k") := Call("a", "2026-01", "h", stored, Started, false)]
    ensures GateAnswer(db, Attempt("b", 1), CallRequest("k", "h", stored - lower), "2026-01") == GateOutcome.Reserved
  {
    TokenNamesAttempt("a", 2, 1);
    assert db.calls.Keys - {Slot("b", "k")} == {Slot("a", "k")};
    Single(Hold(db, "2026-01"), Slot("a", "k"));
  }

  /** Another run takes all of the budget but `lower`. */
  lemma AllButLowerTaken(stored: nat, lower: nat) returns (steps: seq<Step>, w: World)
    requires lower < stored
    ensures w == Reached(Some(stored), steps) && CarefulRun(Some(stored), steps)
    ensures w.db.runs == map["a" := Run(2, AttemptToken("a", 2), Running), "b" := Run(1, "b", Running)]
    ensures w.db.budgets == map["2026-01" := Budget(stored, 0)] && !w.db.paused && IsIdle(w, Attempt("a", 2))
    ensures w.db.calls == map[Slot("a", "k") := Call("a", "2026-01", "h", stored, Started, false),
                              Slot("b", "k") := Call("b", "2026-01", "h", stored - lower, Started, false)]
  {
    steps, w := LeftBehind(stored);
    RestFits(w.db, stored, lower);
    steps, w := PlayGate(Some(stored), steps, Attempt("b", 1), CallRequest("k", "h", stored - lower), "2026-01");
  }

  /**
   * And it can lack that room: for every pair of estimates that shrinks, a run's next attempt re-enters
   * its row with the lower one after another run took what a bump had set free.
   */
  lemma LoweredEstimateOverReserves(stored: nat, lower: nat) returns (steps: seq<Step>, w: World)
    requires lower < stored
    ensures w == Reached(Some(stored), steps) && CarefulRun(Some(stored), steps) && ReservationsFit(w.db, "2026-01")
    ensures var gate := Gate(Attempt("a", 2), CallRequest("k", "h", lower), "2026-01");
            Careful(w, gate) && !ReservationsFit(Next(w, gate).db, "2026-01")
  {
    steps, w := AllButLowerTaken(stored, lower);
    LoweredReentry(w.db, stored, lower);
    GateStepCommits(w, Attempt("a", 2), CallRequest("k", "h", lower), "2026-01");
  }

  /** The gate finds room for `lower`, and the row it re-enters holds back `stored`. */
  lemma LoweredReentry(db: Db, stored: nat, lower: nat)
    requires lower < stored && !db.paused && db.budgets == map["2026-01" := Budget(stored, 0)]
    requires db.runs == map["a" := Run(2, AttemptToken("a", 2), Running), "b" := Run(1, "b", Running)]
    requires db.calls == map[Slot("a", "k") := Call("a", "2026-01", "h", stored, Started, false),
                             Slot("b", "k") := Call("b", "2026-01", "h", stored - lower, Started, false)]
    ensures ReservationsFit(db, "2026-01")
    ensures var a, c := Attempt("a", 2), CallRequest("k", "h", lower);
            GateAnswer(db, a, c, "2026-01") == GateOutcome.Reserved &&
            !ReservationsFit(GateTx(db, a, c, "2026-01", GateOutcome.Reserved), "2026-01")
  {
    var s, t := Slot("a", "k"), Slot("b", "k");
    TokenNamesAttempt("a", 2, 1);
    assert db.calls.Keys - {s} == {t};
    Single(Hold(db, "2026-01"), t);
    Split(db.calls.Keys, Hold(db, "2026-01"), s);
    ReentryFitsExactly(db, Attempt("a", 2), CallRequest("k", "h", lower), "2026-01");
  }
}
