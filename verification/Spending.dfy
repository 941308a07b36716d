// The budget over whole runs: what the gate's derived reservation bounds, under which assumptions,
// and what happens to each bound when one of them goes.
module Spending {
  import opened Wrappers
  import opened Tables
  import opened Runs
  import opened Ledger
  import opened Approvals
  import opened Worlds
  import opened Fences
  import opened Calls
  import opened Sums
  import opened Books
  import Actions

  /** What a current attempt's call in flight may still cost. */
  function Exposure(w: World, period: string): Slot -> int {
    (s: Slot) =>
      if LiveCall(w, s) && w.execs[Current(w, s.run)].phase.period == period
      then w.execs[Current(w, s.run)].phase.estimate else 0
  }

  ghost function Exposed(w: World, period: string): int { Sum(w.db.calls.Keys, Exposure(w, period)) }

  function Limit(db: Db, period: string): int
    requires period in db.budgets
  {
    db.budgets[period].limit
  }

  /** Spent plus what calls in flight can still spend fits the budget. */
  ghost predicate ExposureFits(w: World, period: string) {
    period in w.db.budgets ==> Spent(w.db, period) + Exposed(w, period) <= Limit(w.db, period)
  }

  /** A reply costs no more than its call was estimated at, and the row holds back at least that. */
  predicate Priced(w: World, a: Attempt)
    requires a in w.execs
  {
    w.execs[a].phase.InCall? ==>
      var p := w.execs[a].phase;
      var s := Slot(a.run, p.key);
      (p.stage.Replied? && p.stage.reply.Answer? ==> p.stage.reply.cost <= p.estimate) &&
      (IsCurrent(w, a) && s in w.db.calls ==> p.estimate <= w.db.calls[s].estimate)
  }

  ghost predicate AllPriced(w: World) {
    forall a {:trigger Priced(w, a)} | a in w.execs :: Priced(w, a)
  }

  // ----- estimates -----

  lemma PlainKeepsPriced(w: World, step: Step)
    requires AllPriced(w) && Tokened(w) && Plain(step)
    ensures AllPriced(Next(w, step))
  {
    var w' := Next(w, step);
    PlainIsQuiet(w, step);
    forall a | a in w'.execs && w'.execs[a].phase.InCall? ensures Priced(w', a) {
      assert Priced(w, a) && ExecOk(w, a);
    }
  }

  /** Only `a` moved, and it owes nothing new. */
  lemma OneMoveKeepsPriced(w: World, w': World, a: Attempt)
    requires AllPriced(w) && OthersGoOn(w, w', a) && w'.db.runs == w.db.runs
    requires a in w'.execs ==> Priced(w', a)
    requires forall s | s in w'.db.calls && s in w.db.calls :: w.db.calls[s].estimate <= w'.db.calls[s].estimate
    requires forall b | b in w.execs && w.execs[b].phase.InCall? :: Slot(b.run, w.execs[b].phase.key) in w.db.calls
    ensures AllPriced(w')
  {
    forall b | b in w'.execs ensures Priced(w', b) {
      if b != a {
        assert b in w'.execs - {a} && (w'.execs - {a})[b] == (w.execs - {a})[b];
        assert Priced(w, b);
      }
    }
  }

  lemma GatePrices(w: World, a: Attempt, c: CallRequest, period: string)
    requires AllPriced(w) && Careful(w, Gate(a, c, period))
    ensures var w' := GateStep(w, a, c, period);
            (a in w'.execs ==> Priced(w', a)) &&
            forall s | s in w'.db.calls && s in w.db.calls :: w.db.calls[s].estimate <= w'.db.calls[s].estimate
  {
    assert a in w.execs ==> Priced(w, a);
  }

  lemma GateKeepsPriced(w: World, a: Attempt, c: CallRequest, period: string)
    requires Ledgered(w) && AllPriced(w) && Careful(w, Gate(a, c, period))
    ensures AllPriced(GateStep(w, a, c, period))
  {
    forall b | b in w.execs ensures FlightOk(w, b) {}
    GatePrices(w, a, c, period);
    OneMoveKeepsPriced(w, GateStep(w, a, c, period), a);
  }

  lemma MoveKeepsPriced(w: World, step: Step)
    requires Ledgered(w) && AllPriced(w) && Careful(w, step)
    requires step.Issue? || step.Return? || step.Record? || step.LoseRecord? || step.Crash?
    ensures AllPriced(Next(w, step))
  {
    forall b | b in w.execs ensures FlightOk(w, b) {}
    assert step.a in w.execs ==> Priced(w, step.a);
    OneMoveKeepsPriced(w, Next(w, step), step.a);
  }

  lemma ControlPlaneKeepsPriced(w: World, w': World)
    requires Tokened(w) && AllPriced(w) && w'.execs == w.execs
    requires forall r | r in w'.db.runs && r in w.db.runs :: w.db.runs[r].attempt <= w'.db.runs[r].attempt
    requires w'.db.calls.Keys == w.db.calls.Keys
    requires forall s | s in w.db.calls :: w'.db.calls[s].estimate == w.db.calls[s].estimate
    ensures AllPriced(w')
  {
    forall a | a in w'.execs ensures Priced(w', a) { assert Priced(w, a) && ExecOk(w, a); }
  }

  lemma BumpKeepsPriced(w: World, runs: set<string>)
    requires Tokened(w) && AllPriced(w)
    ensures AllPriced(Bumped(w, runs))
  {
    ControlPlaneKeepsPriced(w, Bumped(w, runs));
  }

  lemma DecideKeepsPriced(w: World, q: DecideRequest, scouted: set<string>)
    requires Tokened(w) && AllPriced(w)
    ensures AllPriced(DecideStep(w, q, scouted))
  {
    ControlPlaneKeepsPriced(w, DecideStep(w, q, scouted));
  }

  lemma ControlStepKeepsPriced(w: World, step: Step)
    requires Tokened(w) && AllPriced(w) && (step.Bump? || step.Decide? || step.Hygiene? || step.SetBudget?)
    ensures AllPriced(Next(w, step))
  {
    match step
    case Bump(run) => BumpKeepsPriced(w, {run});
    case Decide(q, scouted) => DecideKeepsPriced(w, q, scouted);
    case _ => ControlPlaneKeepsPriced(w, Next(w, step));
  }

  lemma StepKeepsPriced(w: World, step: Step)
    requires Tokened(w) && Ledgered(w) && AllPriced(w) && Careful(w, step)
    ensures AllPriced(Next(w, step))
  {
    match step
    case Gate(a, c, period) => GateKeepsPriced(w, a, c, period);
    case _ =>
      if step.Bump? || step.Decide? || step.Hygiene? || step.SetBudget? {
        ControlStepKeepsPriced(w, step);
      } else if Plain(step) {
        PlainKeepsPriced(w, step);
      } else {
        MoveKeepsPriced(w, step);
      }
  }

  // ----- the money in flight -----

  /** Every call in flight is covered by what its row holds back. */
  lemma ExposureIsHeld(w: World, period: string, s: Slot)
    requires Tokened(w) && Ledgered(w) && AllPriced(w) && s in w.db.calls
    ensures 0 <= Exposure(w, period)(s) <= Hold(w.db, period)(s)
  {
    if LiveCall(w, s) {
      var a := Current(w, s.run);
      assert FlightOk(w, a) && Priced(w, a) && ExecOk(w, a) && TokenOk(w.db, a.run);
    }
  }

  lemma NothingHeldBeforeFirstGate(w: World, period: string)
    requires Ledgered(w) && period !in w.db.budgets
    ensures Sum(w.db.calls.Keys, Hold(w.db, period)) == 0
  {
    forall s | s in w.db.calls ensures Hold(w.db, period)(s) == 0 { assert RowOk(w, s); }
    AllZero(w.db.calls.Keys, Hold(w.db, period));
  }

  lemma NothingExposedBeforeFirstGate(w: World, period: string)
    requires Tokened(w) && Ledgered(w) && AllPriced(w) && period !in w.db.budgets
    ensures Exposed(w, period) == 0
  {
    NothingHeldBeforeFirstGate(w, period);
    forall s | s in w.db.calls ensures 0 <= Exposure(w, period)(s) <= Hold(w.db, period)(s) {
      ExposureIsHeld(w, period, s);
    }
    Monotone(w.db.calls.Keys, Exposure(w, period), Hold(w.db, period));
    NonNegative(w.db.calls.Keys, Exposure(w, period));
  }

  /** No call joins, no money moves, no budget shrinks. */
  lemma FewerCallsFit(w: World, w': World, period: string)
    requires Tokened(w) && Ledgered(w) && AllPriced(w) && ExposureFits(w, period)
    requires w'.db.calls.Keys == w.db.calls.Keys
    requires forall s | s in w.db.calls :: Exposure(w', period)(s) <= Exposure(w, period)(s)
    requires Spent(w'.db, period) == Spent(w.db, period)
    requires period in w.db.budgets && period in w'.db.budgets ==> Limit(w.db, period) <= Limit(w'.db, period)
    ensures ExposureFits(w', period)
  {
    Monotone(w.db.calls.Keys, Exposure(w', period), Exposure(w, period));
    if period !in w.db.budgets { NothingExposedBeforeFirstGate(w, period); }
  }

  /** What the other rows expose is at most what they hold back. */
  lemma OthersExposeLess(w: World, s: Slot, period: string)
    requires Tokened(w) && Ledgered(w) && AllPriced(w)
    ensures Sum(w.db.calls.Keys - {s}, Exposure(w, period)) <= ReservedBeside(w.db, period, s)
  {
    forall r | r in w.db.calls.Keys - {s} ensures Exposure(w, period)(r) <= Hold(w.db, period)(r) {
      ExposureIsHeld(w, period, r);
    }
    Monotone(w.db.calls.Keys - {s}, Exposure(w, period), Hold(w.db, period));
  }

  /** Reserving exposes the row's own estimate, and nothing else anew. */
  lemma ReservingExposes(w: World, a: Attempt, c: CallRequest, p: string, period: string)
    requires Tokened(w) && Ledgered(w) && AllPriced(w) && GateAnswer(w.db, a, c, p) == GateOutcome.Reserved && IsIdle(w, a)
    ensures var w', s := GateStep(w, a, c, p), Slot(a.run, c.key);
            Exposed(w', period) == Sum(w.db.calls.Keys - {s}, Exposure(w, period)) + if period == p then c.estimate else 0
  {
    var w', s := GateStep(w, a, c, p), Slot(a.run, c.key);
    var others := w.db.calls.Keys - {s};
    FenceIsCurrency(w, a);
    assert w'.db.calls.Keys - {s} == others;
    forall r | r in others ensures Exposure(w', period)(r) == Exposure(w, period)(r) {}
    Same(others, Exposure(w, period), Exposure(w', period));
    Split(w'.db.calls.Keys, Exposure(w', period), s);
  }

  lemma ReservingFits(w: World, a: Attempt, c: CallRequest, p: string, period: string)
    requires Tokened(w) && Ledgered(w) && AllPriced(w) && ExposureFits(w, period)
    requires GateAnswer(w.db, a, c, p) == GateOutcome.Reserved && IsIdle(w, a)
    ensures ExposureFits(GateStep(w, a, c, p), period)
  {
    var s := Slot(a.run, c.key);
    ReservingExposes(w, a, c, p, period);
    OthersExposeLess(w, s, period);
    if s in w.db.calls { Split(w.db.calls.Keys, Exposure(w, period), s); ExposureIsHeld(w, period, s); }
    if s !in w.db.calls { assert w.db.calls.Keys - {s} == w.db.calls.Keys; }
  }

  lemma RecordingFits(w: World, a: Attempt, period: string)
    requires Tokened(w) && Ledgered(w) && AllPriced(w) && ExposureFits(w, period)
    ensures ExposureFits(RecordStep(w, a), period)
  {
    var w' := RecordStep(w, a);
    FenceIsCurrency(w, a);
    if HasReply(w, a) {
      var s := Slot(a.run, w.execs[a].phase.key);
      assert FlightOk(w, a) && Priced(w, a) && RowOk(w, s);
      if Fenced(w.db, a) {
        forall r | r in w.db.calls && r != s ensures Exposure(w', period)(r) == Exposure(w, period)(r) {}
        assert w'.db.calls.Keys == w.db.calls.Keys;
        Changed(w.db.calls.Keys, Exposure(w, period), w'.db.calls.Keys, Exposure(w', period), s);
      } else {
        FewerCallsFit(w, w', period);
      }
    }
  }

  lemma PlainFits(w: World, step: Step, period: string)
    requires Tokened(w) && Ledgered(w) && AllPriced(w) && ExposureFits(w, period) && Plain(step)
    ensures ExposureFits(Next(w, step), period)
  {
    var w' := Next(w, step);
    PlainIsQuiet(w, step);
    forall s | s in w.db.calls ensures Exposure(w', period)(s) <= Exposure(w, period)(s) { assert RowOk(w, s); }
    FewerCallsFit(w, w', period);
  }

  /** The control plane only ever overtakes calls. */
  lemma ControlPlaneFits(w: World, w': World, period: string)
    requires Tokened(w) && Ledgered(w) && AllPriced(w) && ExposureFits(w, period)
    requires w'.execs == w.execs && w'.db.calls.Keys == w.db.calls.Keys
    requires forall r | r in w.db.runs :: r in w'.db.runs && w.db.runs[r].attempt <= w'.db.runs[r].attempt
    requires Spent(w'.db, period) == Spent(w.db, period)
    requires period in w.db.budgets && period in w'.db.budgets ==> Limit(w.db, period) <= Limit(w'.db, period)
    ensures ExposureFits(w', period)
  {
    forall s | s in w.db.calls ensures Exposure(w', period)(s) <= Exposure(w, period)(s) {
      assert RowOk(w, s);
      if LiveCall(w', s) { assert ExecOk(w, Current(w', s.run)); }
    }
    FewerCallsFit(w, w', period);
  }

  lemma BumpFits(w: World, runs: set<string>, period: string)
    requires Tokened(w) && Ledgered(w) && AllPriced(w) && ExposureFits(w, period)
    ensures ExposureFits(Bumped(w, runs), period)
  {
    ControlPlaneFits(w, Bumped(w, runs), period);
  }

  lemma DecideFits(w: World, q: DecideRequest, scouted: set<string>, period: string)
    requires Tokened(w) && Ledgered(w) && AllPriced(w) && ExposureFits(w, period)
    ensures ExposureFits(DecideStep(w, q, scouted), period)
  {
    ControlPlaneFits(w, DecideStep(w, q, scouted), period);
  }

  lemma ControlStepFits(w: World, step: Step, period: string)
    requires Tokened(w) && Ledgered(w) && AllPriced(w) && ExposureFits(w, period) && Careful(w, step)
    requires step.Bump? || step.Decide? || step.Hygiene? || step.SetBudget?
    ensures ExposureFits(Next(w, step), period)
  {
    match step
    case Bump(run) => BumpFits(w, {run}, period);
    case Decide(q, scouted) => DecideFits(w, q, scouted, period);
    case _ => ControlPlaneFits(w, Next(w, step), period);
  }

  /** An execution that starts no call, and keeps the one it has as it was. */
  lemma OneMoveFits(w: World, w': World, a: Attempt, period: string)
    requires Tokened(w) && Ledgered(w) && AllPriced(w) && ExposureFits(w, period)
    requires OthersGoOn(w, w', a) && w'.db.runs == w.db.runs && w'.db.calls == w.db.calls
    requires a in w'.execs && w'.execs[a].phase.InCall? ==>
               a in w.execs && SameCall(w.execs[a].phase, w'.execs[a].phase)
    requires w.db.budgets == w'.db.budgets || (exists p :: w'.db.budgets == WithPeriod(w.db, p))
    ensures ExposureFits(w', period)
  {
    forall s | s in w.db.calls ensures Exposure(w', period)(s) <= Exposure(w, period)(s) {
      if LiveCall(w', s) {
        var b := Current(w', s.run);
        assert b != a ==> b in w'.execs - {a} && (w'.execs - {a})[b] == (w.execs - {a})[b];
      }
    }
    FewerCallsFit(w, w', period);
  }

  lemma RefusalFits(w: World, a: Attempt, c: CallRequest, p: string, period: string)
    requires Tokened(w) && Ledgered(w) && AllPriced(w) && ExposureFits(w, period)
    requires IsIdle(w, a) ==> GateAnswer(w.db, a, c, p) != GateOutcome.Reserved
    ensures ExposureFits(GateStep(w, a, c, p), period)
  {
    OneMoveFits(w, GateStep(w, a, c, p), a, period);
  }

  lemma MoveFits(w: World, step: Step, period: string)
    requires Tokened(w) && Ledgered(w) && AllPriced(w) && ExposureFits(w, period)
    requires step.Issue? || step.Return? || step.LoseRecord? || step.Crash?
    ensures ExposureFits(Next(w, step), period)
  {
    OneMoveFits(w, Next(w, step), step.a, period);
  }

  lemma GateFits(w: World, a: Attempt, c: CallRequest, p: string, period: string)
    requires Tokened(w) && Ledgered(w) && AllPriced(w) && ExposureFits(w, period)
    ensures ExposureFits(GateStep(w, a, c, p), period)
  {
    if IsIdle(w, a) && GateAnswer(w.db, a, c, p) == GateOutcome.Reserved {
      ReservingFits(w, a, c, p, period);
    } else {
      RefusalFits(w, a, c, p, period);
    }
  }

  lemma StepKeepsExposure(w: World, step: Step, period: string)
    requires Tokened(w) && Ledgered(w) && AllPriced(w) && ExposureFits(w, period) && Careful(w, step)
    ensures ExposureFits(Next(w, step), period)
  {
    match step
    case Gate(a, c, p) => GateFits(w, a, c, p, period);
    case Record(a) => RecordingFits(w, a, period);
    case _ =>
      if Plain(step) {
        PlainFits(w, step, period);
      } else if step.Bump? || step.Decide? || step.Hygiene? || step.SetBudget? {
        ControlStepFits(w, step, period);
      } else {
        MoveFits(w, step, period);
      }
  }

  lemma CarefulPrefix(limit: Option<nat>, steps: seq<Step>)
    requires CarefulRun(limit, steps) && steps != []
    ensures CarefulRun(limit, steps[..|steps| - 1])
    ensures Careful(Reached(limit, steps[..|steps| - 1]), steps[|steps| - 1])
  {
    forall i | 0 <= i < |steps| - 1
      ensures Careful(Reached(limit, steps[..|steps| - 1][..i]), steps[i])
    {
      assert steps[..|steps| - 1][..i] == steps[..i];
    }
  }

  lemma {:induction false} CarefulIsPriced(limit: Option<nat>, steps: seq<Step>)
    requires CarefulRun(limit, steps)
    ensures AllPriced(Reached(limit, steps))
    decreases |steps|
  {
    if steps != [] {
      CarefulPrefix(limit, steps);
      CarefulIsPriced(limit, steps[..|steps| - 1]);
      LedgerIsSound(limit, steps[..|steps| - 1]);
      StepKeepsPriced(Reached(limit, steps[..|steps| - 1]), steps[|steps| - 1]);
    }
  }

  /**
   * What is spent, and what calls in flight can still spend, fits every period's budget in every
   * state a careful run reaches: across gates, completions, errors, bumps, crashes, re-executed
   * workflows and month changes.
   */
  lemma {:induction false} MoneyInFlightFits(limit: Option<nat>, steps: seq<Step>, period: string)
    requires CarefulRun(limit, steps)
    ensures ExposureFits(Reached(limit, steps), period)
    decreases |steps|
  {
    if steps != [] {
      CarefulPrefix(limit, steps);
      MoneyInFlightFits(limit, steps[..|steps| - 1], period);
      CarefulIsPriced(limit, steps[..|steps| - 1]);
      LedgerIsSound(limit, steps[..|steps| - 1]);
      StepKeepsExposure(Reached(limit, steps[..|steps| - 1]), steps[|steps| - 1], period);
    }
  }

  /** Two runs execute; the first is in a call whose row holds back `stored`. */
  lemma FirstInCall(stored: nat, limit: nat) returns (steps: seq<Step>, w: World)
    requires stored <= limit
    ensures w == Reached(Some(limit), steps) && CarefulRun(Some(limit), steps) && w.stranded == {}
    ensures w.db == Init(Some(limit)).db.(
              runs := map["a" := Run(1, "a", Running), "b" := Run(1, "b", Running)], workflows := {"a", "b"},
              budgets := map["2026-01" := Budget(limit, 0)],
              calls := map[Slot("a", "k") := Call("a", "2026-01", "h", stored, Started, false)])
    ensures w.execs.Keys == {Attempt("a", 1), Attempt("b", 1)} && w.execs[Attempt("b", 1)] == Exec(Idle, [])
  {
    steps := OneRun(Some(limit), "a");
    w := Reached(Some(limit), steps);
    steps, w := PlayRun(Some(limit), steps, "b");
    assert ReservedBeside(w.db, "2026-01", Slot("a", "k")) == 0;
    steps, w := PlayGate(Some(limit), steps, Attempt("a", 1), CallRequest("k", "h", stored), "2026-01");
  }

  /** And crashes in it. */
  lemma CrashedInCall(stored: nat, limit: nat) returns (steps: seq<Step>, w: World)
    requires stored <= limit
    ensures w == Reached(Some(limit), steps)
    ensures w.db == Init(Some(limit)).db.(
              runs := map["a" := Run(1, "a", Running), "b" := Run(1, "b", Running)], workflows := {"a", "b"},
              budgets := map["2026-01" := Budget(limit, 0)],
              calls := map[Slot("a", "k") := Call("a", "2026-01", "h", stored, Started, false)])
    ensures w.execs == map[Attempt("a", 1) := Exec(Idle, []), Attempt("b", 1) := Exec(Idle, [])]
  {
    steps, w := FirstInCall(stored, limit);
    steps, w := PlayRecovery(Some(limit), steps, Attempt("a", 1));
  }

  /** Its gate passes again with a higher estimate, and the row keeps the old one. */
  lemma ReenteredHigher(stored: nat, raised: nat) returns (steps: seq<Step>, w: World)
    requires stored < raised
    ensures w == Reached(Some(raised), steps)
    ensures w.db == Init(Some(raised)).db.(
              runs := map["a" := Run(1, "a", Running), "b" := Run(1, "b", Running)], workflows := {"a", "b"},
              budgets := map["2026-01" := Budget(raised, 0)],
              calls := map[Slot("a", "k") := Call("a", "2026-01", "h", stored, Started, true)])
    ensures w.execs == map[Attempt("a", 1) := Exec(InCall("k", "2026-01", raised, Held), []),
                           Attempt("b", 1) := Exec(Idle, [])]
  {
    steps, w := CrashedInCall(stored, raised);
    assert w.db.calls.Keys - {Slot("a", "k")} == {};
    assert ReservedBeside(w.db, "2026-01", Slot("a", "k")) == 0;
    steps, w := PlayGate(Some(raised), steps, Attempt("a", 1), CallRequest("k", "h", raised), "2026-01");
  }

  /** So the gate of the second run counts too little. */
  lemma BothGatesPass(stored: nat, raised: nat) returns (steps: seq<Step>, w: World)
    requires stored < raised
    ensures w == Reached(Some(raised), steps)
    ensures var a, b := Attempt("a", 1), Attempt("b", 1);
            w.db.calls.Keys == {Slot("a", "k"), Slot("b", "k")} && w.db.budgets == map["2026-01" := Budget(raised, 0)] &&
            Fenced(w.db, a) && Fenced(w.db, b) && a in w.execs && b in w.execs &&
            w.execs[a].phase == InCall("k", "2026-01", raised, Held) &&
            w.execs[b].phase == InCall("k", "2026-01", raised - stored, Held)
  {
    var s, t := Slot("a", "k"), Slot("b", "k");
    steps, w := ReenteredHigher(stored, raised);
    assert w.db.calls.Keys - {t} == {s};
    Single(Hold(w.db, "2026-01"), s);
    steps, w := PlayGate(Some(raised), steps, Attempt("b", 1), CallRequest("k", "h", raised - stored), "2026-01");
  }

  /**
   * Re-entering a row with a higher estimate is the clause no budget survives. For every pair of
   * estimates that grows, some run spends more than its budget although no admin lowered it and
   * every reply costs exactly what its call was estimated at.
   */
  lemma RaisedEstimateOverspends(stored: nat, raised: nat) returns (steps: seq<Step>, w: World)
    requires stored < raised
    ensures w == Reached(Some(raised), steps) && "2026-01" in w.db.budgets
    ensures w.db.budgets["2026-01"].limit == raised < w.db.budgets["2026-01"].spent
  {
    steps, w := BothGatesPass(stored, raised);
    steps, w := PlayCall(Some(raised), steps, Attempt("a", 1), Answer("t", raised));
    steps, w := PlayCall(Some(raised), steps, Attempt("b", 1), Answer("t", raised - stored));
  }
}
