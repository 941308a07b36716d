// When a provider call can still follow a row that was already settled: exactly when its attempt is
// stale, or can become stale, between its gate and the provider.
module StaleCalls {
  import opened Wrappers
  import opened Tokens
  import opened Tables
  import opened Runs
  import opened Ledger
  import opened Approvals
  import opened Worlds
  import opened Fences
  import opened Calls
  import opened Sums
  import opened Strandings
  import ProviderCalls

  /** A gate let the attempt's call through, and the provider has not been asked yet. */
  predicate Holding(w: World, a: Attempt) {
    a in w.execs && w.execs[a].phase.InCall? && w.execs[a].phase.stage == Held
  }

  function SlotOf(w: World, a: Attempt): Slot
    requires Holding(w, a)
  {
    Slot(a.run, w.execs[a].phase.key)
  }

  predicate SettledAt(w: World, s: Slot) { s in w.db.calls && w.db.calls[s].Settled() }

  /** A way on from here to where the row is settled and the call still held, which then costs one call more. */
  ghost predicate SettlesFirst(limit: Option<nat>, steps: seq<Step>, a: Attempt, longer: seq<Step>)
    requires Holding(Reached(limit, steps), a)
  {
    var w, w' := Reached(limit, steps), Reached(limit, longer);
    steps <= longer && a in w'.execs && w'.execs[a] == w.execs[a] && SettledAt(w', SlotOf(w, a)) &&
    Count(Next(w', Issue(a)).log.issued, SlotOf(w, a)) == Count(w'.log.issued, SlotOf(w, a)) + 1
  }

  /** A held call can be made. */
  lemma HeldCallIsMade(w: World, a: Attempt)
    requires Holding(w, a)
    ensures Count(Next(w, Issue(a)).log.issued, SlotOf(w, a)) == Count(w.log.issued, SlotOf(w, a)) + 1
  {
  }

  // ----- a stale attempt's call can -----

  /** What the way there keeps: the call is held, its attempt stale, its row there. */
  ghost predicate Stale(limit: Option<nat>, steps: seq<Step>, w: World, a: Attempt, exec: Exec) {
    w == Reached(limit, steps) && a in w.execs && w.execs[a] == exec && exec.phase.InCall? && exec.phase.stage == Held &&
    a.run in w.db.runs && a.n < w.db.runs[a.run].attempt && Slot(a.run, exec.phase.key) in w.db.calls
  }

  /** The attempt that overtook it executes, from the start. */
  lemma CurrentExecutes(limit: Option<nat>, steps: seq<Step>, w: World, a: Attempt, exec: Exec)
    returns (longer: seq<Step>, w': World)
    requires Stale(limit, steps, w, a, exec)
    ensures steps <= longer && Stale(limit, longer, w', a, exec)
    ensures var c := Current(w', a.run); IsIdle(w', c) && Fenced(w'.db, c) && w'.db.calls == w.db.calls
  {
    var c := Current(w, a.run);
    RunsAreTokened(limit, steps);
    FenceIsCurrency(w, c);
    var crashed: World;
    longer, crashed := Play(limit, steps, Crash(c));
    longer, w' := PlayClaim(limit, longer, c);
  }

  lemma PlayUnpause(limit: Option<nat>, steps: seq<Step>) returns (longer: seq<Step>, w: World)
    ensures steps <= longer
    ensures var before := Reached(limit, steps);
            w == Reached(limit, longer) && w == before.(db := before.db.(paused := false))
  {
    longer, w := Play(limit, steps, SetPaused(false));
  }

  lemma PlayBudget(limit: Option<nat>, steps: seq<Step>, period: string, room: nat) returns (longer: seq<Step>, w: World)
    requires period in Reached(limit, steps).db.budgets
    ensures steps <= longer
    ensures var before := Reached(limit, steps);
            w == Reached(limit, longer) && w == before.(db := SetBudgetTx(before.db, period, room))
  {
    longer, w := Play(limit, steps, SetBudget(period, room));
  }

  /** The app is not paused, and the row's month has room for whatever is asked of it. */
  lemma RoomIsMade(limit: Option<nat>, steps: seq<Step>, w: World, a: Attempt, exec: Exec)
    returns (longer: seq<Step>, w': World)
    requires Stale(limit, steps, w, a, exec)
    ensures steps <= longer && Stale(limit, longer, w', a, exec)
    ensures w'.db.runs == w.db.runs && w'.db.calls == w.db.calls && w'.execs == w.execs && !w'.db.paused
    ensures var row := w.db.calls[Slot(a.run, exec.phase.key)];
            row.period in w'.db.budgets &&
            !Exceeds(w'.db, w'.db.budgets[row.period], row.period, Slot(a.run, exec.phase.key), 0)
  {
    var s := Slot(a.run, exec.phase.key);
    var period := w.db.calls[s].period;
    LedgerIsSound(limit, steps);
    assert RowOk(w, s);
    NonNegative(w.db.calls.Keys - {s}, Hold(w.db, period));
    var room := w.db.budgets[period].spent + ReservedBeside(w.db, period, s);
    longer, w' := PlayUnpause(limit, steps);
    longer, w' := PlayBudget(limit, longer, period, room);
    SameReserved(w.db, w'.db, period, s);
  }

  lemma SameReserved(db: Db, db': Db, period: string, s: Slot)
    requires db'.calls == db.calls && db'.runs == db.runs
    ensures ReservedBeside(db', period, s) == ReservedBeside(db, period, s)
  {
    Same(db.calls.Keys - {s}, Hold(db, period), Hold(db', period));
  }

  /** It re-enters the row, makes the call, and settles it. */
  lemma CurrentSettles(limit: Option<nat>, steps: seq<Step>, w: World, a: Attempt, exec: Exec)
    returns (longer: seq<Step>, w': World)
    requires Stale(limit, steps, w, a, exec) && !SettledAt(w, Slot(a.run, exec.phase.key)) && !w.db.paused
    requires var c := Current(w, a.run); IsIdle(w, c) && Fenced(w.db, c)
    requires var s := Slot(a.run, exec.phase.key); var period := w.db.calls[s].period;
             period in w.db.budgets && !Exceeds(w.db, w.db.budgets[period], period, s, 0)
    ensures steps <= longer && Stale(limit, longer, w', a, exec) && SettledAt(w', Slot(a.run, exec.phase.key))
  {
    var c, s := Current(w, a.run), Slot(a.run, exec.phase.key);
    var row := w.db.calls[s];
    longer, w' := PlayGate(limit, steps, c, CallRequest(s.key, row.inputHash, 0), row.period);
    longer, w' := PlayCall(limit, longer, c, Answer("", 0));
  }

  lemma StaleSettles(limit: Option<nat>, steps: seq<Step>, w: World, a: Attempt, exec: Exec)
    returns (longer: seq<Step>, w': World)
    requires Stale(limit, steps, w, a, exec)
    ensures steps <= longer && Stale(limit, longer, w', a, exec) && SettledAt(w', Slot(a.run, exec.phase.key))
  {
    longer, w' := steps, w;
    if !SettledAt(w, Slot(a.run, exec.phase.key)) {
      longer, w' := CurrentExecutes(limit, longer, w', a, exec);
      longer, w' := RoomIsMade(limit, longer, w', a, exec);
      longer, w' := CurrentSettles(limit, longer, w', a, exec);
    }
  }

  /** An attempt is stale, or a bump makes it so. */
  lemma BecomesStale(limit: Option<nat>, steps: seq<Step>, a: Attempt) returns (longer: seq<Step>, w: World)
    requires var w := Reached(limit, steps); Holding(w, a) && (!IsCurrent(w, a) || CanBump(w.db, {a.run}))
    ensures steps <= longer && Stale(limit, longer, w, a, Reached(limit, steps).execs[a])
  {
    longer, w := steps, Reached(limit, steps);
    RunsAreTokened(limit, steps);
    LedgerIsSound(limit, steps);
    assert ExecOk(w, a) && FlightOk(w, a);
    if IsCurrent(w, a) { longer, w := PlayBump(limit, steps, a.run); }
  }

  // ----- any other cannot -----

  /** The id the run's next attempt takes is taken, so the run never leaves this one. */
  predicate Pinned(db: Db, a: Attempt) {
    a.run in db.runs && db.runs[a.run].attempt == a.n && NextToken(db, a.run) in db.workflows
  }

  lemma BumpKeepsPinned(w: World, runs: set<string>, a: Attempt)
    requires Pinned(w.db, a)
    ensures Pinned(Bumped(w, runs).db, a)
  {
    assert a.run in runs ==> !CanBump(w.db, runs);
  }

  lemma StatusStepsKeepPinned(w: World, step: Step, a: Attempt)
    requires Pinned(w.db, a)
    requires step.Start? || step.Claim? || step.Conclude? || step.MarkEnded? || step.Suspend?
    ensures Pinned(Next(w, step).db, a)
  {
  }

  lemma StepKeepsPinned(w: World, step: Step, a: Attempt)
    requires Pinned(w.db, a)
    ensures Pinned(Next(w, step).db, a)
  {
    match step
    case Bump(run) => BumpKeepsPinned(w, {run}, a);
    case Decide(_, scouted) => if Next(w, step) != w { BumpKeepsPinned(w, scouted, a); }
    case _ =>
      if step.Start? || step.Claim? || step.Conclude? || step.MarkEnded? || step.Suspend? {
        StatusStepsKeepPinned(w, step, a);
      } else {
        OtherStepsKeepRuns(w, step);
      }
  }

  lemma {:induction false} PinnedStays(limit: Option<nat>, steps: seq<Step>, longer: seq<Step>, a: Attempt)
    requires Pinned(Reached(limit, steps).db, a) && steps <= longer
    ensures Pinned(Reached(limit, longer).db, a)
    decreases |longer|
  {
    if longer != steps {
      PinnedStays(limit, steps, longer[..|longer| - 1], a);
      StepKeepsPinned(Reached(limit, longer[..|longer| - 1]), longer[|longer| - 1], a);
    }
  }

  /**
   * From any state of any run, a call a gate let through can reach the provider after its row was
   * settled, as a call more for it, exactly when its attempt is not its run's current one, or can still
   * be bumped.
   */
  lemma CallFollowsSettlementExactly(limit: Option<nat>, steps: seq<Step>, a: Attempt)
    requires Holding(Reached(limit, steps), a)
    ensures (exists longer :: SettlesFirst(limit, steps, a, longer)) <==>
            !IsCurrent(Reached(limit, steps), a) || CanBump(Reached(limit, steps).db, {a.run})
  {
    var w := Reached(limit, steps);
    if !IsCurrent(w, a) || CanBump(w.db, {a.run}) {
      var stale, w1 := BecomesStale(limit, steps, a);
      var longer, w2 := StaleSettles(limit, stale, w1, a, w.execs[a]);
      HeldCallIsMade(w2, a);
      assert SettlesFirst(limit, steps, a, longer);
    } else {
      forall longer ensures !SettlesFirst(limit, steps, a, longer) {
        if SettlesFirst(limit, steps, a, longer) {
          PinnedStays(limit, steps, longer, a);
          ProviderCalls.CurrentCallsPrecedeSettlement(limit, longer, a);
        }
      }
    }
  }
}
