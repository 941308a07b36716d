// "At most one extra provider call per crash, always visible": how many calls one ledger key makes
// over a whole run.
module ProviderCalls {
  import opened Wrappers
  import opened Tokens
  import opened Tables
  import opened Ledger
  import opened Approvals
  import opened Worlds
  import opened Fences
  import opened Calls
  import opened Sums
  import Actions

  /** A reserved call its attempt has yet to make. */
  function Owing(w: World, s: Slot): Attempt -> int {
    (a: Attempt) =>
      if a.run == s.run && Calling(w, a, s.key) && w.execs[a].phase.stage == Held then 1 else 0
  }

  ghost function Owed(w: World, s: Slot): int { Sum(w.execs.Keys, Owing(w, s)) }

  /** Every call made or still owed was let through by a gate of its own. */
  ghost predicate PaidFor(w: World, s: Slot) {
    Count(w.log.issued, s) + Owed(w, s) <= Count(w.log.reserved, s)
  }

  lemma OwedChanges(w: World, w': World, a: Attempt, s: Slot)
    requires OthersGoOn(w, w', a)
    ensures Owed(w', s) == Owed(w, s) - Part(w.execs.Keys, Owing(w, s), a) + Part(w'.execs.Keys, Owing(w', s), a)
  {
    assert w.execs.Keys - {a} == (w.execs - {a}).Keys == w'.execs.Keys - {a};
    forall b | b in w.execs && b != a ensures Owing(w, s)(b) == Owing(w', s)(b) {
      assert b in w.execs - {a} && (w.execs - {a})[b] == (w'.execs - {a})[b];
    }
    Changed(w.execs.Keys, Owing(w, s), w'.execs.Keys, Owing(w', s), a);
  }

  lemma OwedStays(w: World, w': World, s: Slot)
    requires w'.execs == w.execs
    ensures Owed(w', s) == Owed(w, s)
  {
    Same(w.execs.Keys, Owing(w, s), Owing(w', s));
  }

  /** One step moves what attempt `a` owes, what was issued and what was reserved in balance. */
  ghost predicate Balanced(w: World, w': World, a: Attempt, s: Slot) {
    Count(w'.log.issued, s) + Part(w'.execs.Keys, Owing(w', s), a) - Count(w'.log.reserved, s) <=
    Count(w.log.issued, s) + Part(w.execs.Keys, Owing(w, s), a) - Count(w.log.reserved, s)
  }

  lemma BalanceKeepsPaid(w: World, w': World, a: Attempt, s: Slot)
    requires PaidFor(w, s) && OthersGoOn(w, w', a) && Balanced(w, w', a, s)
    ensures PaidFor(w', s)
  {
    OwedChanges(w, w', a, s);
  }

  lemma AnswerKeepsPaid(w: World, a: Attempt, c: CallRequest, period: string, answer: GateOutcome, s: Slot)
    requires PaidFor(w, s) && IsIdle(w, a)
    ensures PaidFor(Answered(w, a, c, period, answer), s)
  {
    BalanceKeepsPaid(w, Answered(w, a, c, period, answer), a, s);
  }

  lemma GateKeepsPaid(w: World, a: Attempt, c: CallRequest, period: string, s: Slot)
    requires PaidFor(w, s)
    ensures PaidFor(GateStep(w, a, c, period), s)
  {
    if IsIdle(w, a) { AnswerKeepsPaid(w, a, c, period, GateAnswer(w.db, a, c, period), s); }
  }

  lemma IssueKeepsPaid(w: World, a: Attempt, s: Slot)
    requires PaidFor(w, s)
    ensures PaidFor(IssueStep(w, a), s)
  {
    BalanceKeepsPaid(w, IssueStep(w, a), a, s);
  }

  lemma RecordKeepsPaid(w: World, a: Attempt, s: Slot)
    requires PaidFor(w, s)
    ensures PaidFor(RecordStep(w, a), s)
  {
    BalanceKeepsPaid(w, RecordStep(w, a), a, s);
  }

  lemma LossKeepsPaid(w: World, a: Attempt, s: Slot)
    requires PaidFor(w, s)
    ensures PaidFor(Lost(w, a), s)
  {
    BalanceKeepsPaid(w, Lost(w, a), a, s);
  }

  /** A step that moves nothing of the ledger makes no call and opens no gate. */
  lemma QuietKeepsPaid(w: World, w': World, a: Attempt, s: Slot)
    requires PaidFor(w, s) && LedgerQuiet(w, w') && w'.log.issued == w.log.issued && OthersGoOn(w, w', a)
    ensures PaidFor(w', s)
  {
    BalanceKeepsPaid(w, w', a, s);
  }

  lemma AttemptStepsAreQuiet(w: World, step: Step)
    requires step.Claim? || step.Conclude? || step.Ask? || step.Suspend? || step.Take? || step.Deliver? || step.Settle?
    ensures var w' := Next(w, step);
            LedgerQuiet(w, w') && w'.log.issued == w.log.issued && OthersGoOn(w, w', step.a)
  {
    if step.Take? || step.Deliver? || step.Settle? { SendStepsAreQuiet(w, step); }
  }

  lemma SendStepsAreQuiet(w: World, step: Step)
    requires step.Take? || step.Deliver? || step.Settle?
    ensures var w' := Next(w, step);
            LedgerQuiet(w, w') && w'.log.issued == w.log.issued && OthersGoOn(w, w', step.a)
  {
  }

  /** The steps of one attempt that leave the ledger alone. */
  lemma AttemptStepsKeepPaid(w: World, step: Step, s: Slot)
    requires PaidFor(w, s)
    requires step.Claim? || step.Conclude? || step.Ask? || step.Suspend? || step.Take? || step.Deliver? || step.Settle?
    ensures PaidFor(Next(w, step), s)
  {
    AttemptStepsAreQuiet(w, step);
    QuietKeepsPaid(w, Next(w, step), step.a, s);
  }

  lemma ControlStepsKeepPaid(w: World, step: Step, s: Slot)
    requires PaidFor(w, s)
    requires step.Start? || step.Bump? || step.MarkEnded? || step.SetPaused? || step.SetBudget? || step.Hygiene? ||
             step.Tick? || step.Decide?
    ensures PaidFor(Next(w, step), s)
  {
    OwedStays(w, Next(w, step), s);
  }

  lemma StepKeepsPaid(w: World, step: Step, s: Slot)
    requires PaidFor(w, s)
    ensures PaidFor(Next(w, step), s)
  {
    match step
    case Gate(a, c, period) => GateKeepsPaid(w, a, c, period, s);
    case Issue(a) => IssueKeepsPaid(w, a, s);
    case Record(a) => RecordKeepsPaid(w, a, s);
    case LoseRecord(a) => LossKeepsPaid(w, a, s);
    case Crash(a) => LossKeepsPaid(w, a, s);
    case Return(a, reply) => BalanceKeepsPaid(w, ReturnStep(w, a, reply), a, s);
    case _ =>
      if step.Claim? || step.Conclude? || step.Ask? || step.Suspend? || step.Take? || step.Deliver? || step.Settle? {
        AttemptStepsKeepPaid(w, step, s);
      } else {
        ControlStepsKeepPaid(w, step, s);
      }
  }

  lemma {:induction false} AlwaysPaid(limit: Option<nat>, steps: seq<Step>, s: Slot)
    ensures PaidFor(Reached(limit, steps), s)
    decreases |steps|
  {
    if steps != [] {
      AlwaysPaid(limit, steps[..|steps| - 1], s);
      StepKeepsPaid(Reached(limit, steps[..|steps| - 1]), steps[|steps| - 1], s);
    }
  }

  /**
   * A key costs at most one provider call, plus one for every bump, crash or lost completion that
   * hit a call of it in flight; and from the second call on, its row says so.
   */
  lemma ExtraCallsBoundedAndVisible(limit: Option<nat>, steps: seq<Step>, s: Slot)
    ensures var w := Reached(limit, steps);
            Count(w.log.issued, s) <= 1 + Count(w.log.hits, s) &&
            (Count(w.log.issued, s) > 1 ==> s in w.db.calls && w.db.calls[s].doubled)
  {
    var w := Reached(limit, steps);
    LedgerIsSound(limit, steps);
    AlwaysPaid(limit, steps, s);
    NonNegative(w.execs.Keys, Owing(w, s));
    assert s in w.db.calls ==> RowOk(w, s);
  }

  /** No call of the run's current attempt follows a settled row. */
  lemma CurrentCallsPrecedeSettlement(limit: Option<nat>, steps: seq<Step>, a: Attempt)
    requires var w := Reached(limit, steps); a in w.execs && w.execs[a].phase.InCall?
    ensures var w := Reached(limit, steps);
            var s := Slot(a.run, w.execs[a].phase.key);
            s in w.db.calls && (w.db.calls[s].Settled() ==> !IsCurrent(w, a))
  {
    LedgerIsSound(limit, steps);
    assert FlightOk(Reached(limit, steps), a);
  }

  // ----- what counts as a hit -----

  /** The run's current attempt is in a call of this key. */
  predicate InFlight(w: World, s: Slot) {
    s.run in w.db.runs &&
    var a := Attempt(s.run, w.db.runs[s.run].attempt);
    a in w.execs && w.execs[a].phase.InCall? && w.execs[a].phase.key == s.key
  }

  predicate OneHitAtMost(w: World, w': World, s: Slot) {
    Count(w'.log.hits, s) == Count(w.log.hits, s) ||
    (InFlight(w, s) && Count(w'.log.hits, s) == Count(w.log.hits, s) + 1)
  }

  lemma HittingHitsOnce(w: World, runs: set<string>, s: Slot)
    requires w.log.hits.Keys <= w.log.reserved.Keys
    ensures OneHitAtMost(w, Hitting(w, runs), s)
  {
  }

  /** No hit counted, and nothing let through forgotten. */
  predicate SameHits(w: World, w': World) {
    w'.log.hits == w.log.hits && w.log.reserved.Keys <= w'.log.reserved.Keys
  }

  lemma GateHitsNothing(w: World, a: Attempt, c: CallRequest, period: string)
    ensures SameHits(w, GateStep(w, a, c, period))
  {
    hide GateAnswer;
    if IsIdle(w, a) { AnswerHitsNothing(w, a, c, period, GateAnswer(w.db, a, c, period)); }
  }

  lemma AnswerHitsNothing(w: World, a: Attempt, c: CallRequest, period: string, answer: GateOutcome)
    requires a in w.execs
    ensures SameHits(w, Answered(w, a, c, period, answer))
  {
  }

  lemma RecordHitsNothing(w: World, a: Attempt)
    ensures SameHits(w, RecordStep(w, a))
  {
  }

  lemma CallStepsHitNothing(w: World, step: Step)
    requires step.Gate? || step.Issue? || step.Return? || step.Record?
    ensures SameHits(w, Next(w, step))
  {
    match step
    case Gate(a, c, period) => GateHitsNothing(w, a, c, period);
    case Record(a) => RecordHitsNothing(w, a);
    case _ =>
  }

  lemma FlowStepsHitNothing(w: World, step: Step)
    requires step.Claim? || step.Conclude? || step.Ask? || step.Suspend? || step.Take? || step.Deliver? || step.Settle?
    ensures SameHits(w, Next(w, step))
  {
  }

  lemma OtherStepsHitNothing(w: World, step: Step)
    requires !step.Bump? && !step.Decide? && !step.Crash? && !step.LoseRecord?
    ensures SameHits(w, Next(w, step))
  {
    if step.Gate? || step.Issue? || step.Return? || step.Record? {
      CallStepsHitNothing(w, step);
    } else if step.Claim? || step.Conclude? || step.Ask? || step.Suspend? || step.Take? || step.Deliver? || step.Settle? {
      FlowStepsHitNothing(w, step);
    }
  }

  lemma StepHits(w: World, step: Step, s: Slot)
    requires w.log.hits.Keys <= w.log.reserved.Keys
    ensures OneHitAtMost(w, Next(w, step), s)
    ensures Next(w, step).log.hits != w.log.hits ==> step.Bump? || step.Decide? || step.Crash? || step.LoseRecord?
  {
    match step
    case Bump(run) => HittingHitsOnce(w, {run}, s);
    case Decide(q, scouted) => HittingHitsOnce(w, scouted, s);
    case Crash(a) => HittingHitsOnce(w, {a.run}, s);
    case LoseRecord(a) => HittingHitsOnce(w, {a.run}, s);
    case _ => OtherStepsHitNothing(w, step);
  }

  lemma StepHitsReserved(w: World, step: Step)
    requires w.log.hits.Keys <= w.log.reserved.Keys
    ensures Next(w, step).log.hits.Keys <= Next(w, step).log.reserved.Keys
  {
    if !step.Bump? && !step.Decide? && !step.Crash? && !step.LoseRecord? { OtherStepsHitNothing(w, step); }
  }

  lemma {:induction false} OnlyReservedIsHit(limit: Option<nat>, steps: seq<Step>)
    ensures Reached(limit, steps).log.hits.Keys <= Reached(limit, steps).log.reserved.Keys
    decreases |steps|
  {
    if steps != [] {
      OnlyReservedIsHit(limit, steps[..|steps| - 1]);
      StepHitsReserved(Reached(limit, steps[..|steps| - 1]), steps[|steps| - 1]);
    }
  }

  /** A hit is a bump, a decision, a crash or a lost completion that meets a call in flight, and counts once. */
  lemma HitsAreEarned(limit: Option<nat>, steps: seq<Step>, step: Step, s: Slot)
    ensures var w := Reached(limit, steps); var w' := Next(w, step);
            OneHitAtMost(w, w', s) && (w'.log.hits != w.log.hits ==> step.Bump? || step.Decide? || step.Crash? || step.LoseRecord?)
  {
    OnlyReservedIsHit(limit, steps);
    StepHits(Reached(limit, steps), step, s);
  }
}
