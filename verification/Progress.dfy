// What runs get done: a call, a send and a decision that nothing gets in the way of come to their end
// from any state of any run, and a paused app lets no new call through.
module Progress {
  import opened Wrappers
  import opened Tokens
  import opened Tables
  import opened Runs
  import opened Ledger
  import opened Approvals
  import opened Worlds
  import Actions

  // ----- the pause -----

  lemma PausedStepReservesNothing(w: World, step: Step)
    requires w.db.paused && step != SetPaused(false)
    ensures Next(w, step).db.paused && Next(w, step).log.reserved == w.log.reserved
  {
    match step
    case Gate(a, c, period) => PausedGateReservesNothing(w, a, c, period);
    case Decide(q, scouted) => assert DecideStep(w, q, scouted).db.paused;
    case _ => OtherStepsReserveNothing(w, step);
  }

  lemma PausedGateReservesNothing(w: World, a: Attempt, c: CallRequest, period: string)
    requires w.db.paused
    ensures GateStep(w, a, c, period).db.paused && GateStep(w, a, c, period).log.reserved == w.log.reserved
  {
    if IsIdle(w, a) { assert GateAnswer(w.db, a, c, period) in {GateOutcome.Stale, AppPaused}; }
  }

  lemma OtherStepsReserveNothing(w: World, step: Step)
    requires w.db.paused && step != SetPaused(false) && !step.Gate? && !step.Decide?
    ensures Next(w, step).db.paused && Next(w, step).log.reserved == w.log.reserved
  {
    if step.Ask? || step.Suspend? { GateStepsReserveNothing(w, step); }
    else if step.Take? || step.Deliver? || step.Settle? { SendStepsReserveNothing(w, step); }
    else if step.Issue? || step.Return? || step.Record? || step.LoseRecord? { CallStepsReserveNothing(w, step); }
  }

  lemma GateStepsReserveNothing(w: World, step: Step)
    requires w.db.paused && (step.Ask? || step.Suspend?)
    ensures Next(w, step).db.paused && Next(w, step).log.reserved == w.log.reserved
  {
  }

  lemma SendStepsReserveNothing(w: World, step: Step)
    requires w.db.paused && (step.Take? || step.Deliver? || step.Settle?)
    ensures Next(w, step).db.paused && Next(w, step).log.reserved == w.log.reserved
  {
  }

  lemma CallStepsReserveNothing(w: World, step: Step)
    requires w.db.paused && (step.Issue? || step.Return? || step.Record? || step.LoseRecord?)
    ensures Next(w, step).db.paused && Next(w, step).log.reserved == w.log.reserved
  {
  }

  /** While an app is paused no gate lets a call through, whatever else happens. */
  lemma {:induction false} PausedAppReservesNothing(w: World, more: seq<Step>)
    requires w.db.paused && forall i | 0 <= i < |more| :: more[i] != SetPaused(false)
    ensures After(w, more).db.paused && After(w, more).log.reserved == w.log.reserved
    decreases |more|
  {
    if more != [] {
      PausedAppReservesNothing(w, more[..|more| - 1]);
      PausedStepReservesNothing(After(w, more[..|more| - 1]), more[|more| - 1]);
    }
  }

  // ----- a call -----

  /** A call with room in its budget is let through, made, answered, paid for and told to the flow. */
  lemma CallIsCarriedOut(limit: Option<nat>, steps: seq<Step>, a: Attempt, c: CallRequest, period: string, text: string, cost: nat)
    returns (longer: seq<Step>, w: World)
    requires var w0 := Reached(limit, steps);
             IsIdle(w0, a) && GateAnswer(w0.db, a, c, period) == GateOutcome.Reserved
    ensures steps <= longer && w == Reached(limit, longer)
    ensures var w0, s := Reached(limit, steps), Slot(a.run, c.key);
            s in w.db.calls && w.db.calls[s].status == Ok(text, cost) && w.db.calls[s].period == period &&
            period in w.db.budgets && w.db.budgets[period].spent == Spent(w0.db, period) + cost &&
            Count(w.log.issued, s) == Count(w0.log.issued, s) + 1 &&
            a in w.execs && w.execs[a] == Exec(Idle, w0.execs[a].seen + [SawText(c.key, text)])
  {
    var w0 := Reached(limit, steps);
    longer, w := PlayGate(limit, steps, a, c, period);
    longer, w := PlayCall(limit, longer, a, Answer(text, cost));
    ReservedIsPaid(w0.db, a, c, period, text, cost);
  }

  /** What is recorded of a call that was let through. */
  lemma ReservedIsPaid(db: Db, a: Attempt, c: CallRequest, period: string, text: string, cost: nat)
    requires GateAnswer(db, a, c, period) == GateOutcome.Reserved
    ensures var s, db' := Slot(a.run, c.key), CompleteTx(GateTx(db, a, c, period, GateOutcome.Reserved), a, c.key, period, text, cost);
            s in db'.calls && db'.calls[s].status == Ok(text, cost) && db'.calls[s].period == period &&
            period in db'.budgets && db'.budgets[period].spent == Spent(db, period) + cost
  {
  }

  /** An attempt that asks for it again is told the same, with no call made. */
  lemma AnswerIsToldAgain(limit: Option<nat>, steps: seq<Step>, a: Attempt, c: CallRequest, period: string, text: string, cost: nat)
    returns (longer: seq<Step>, w: World)
    requires var w0 := Reached(limit, steps);
             IsIdle(w0, a) && AsksAgain(w0.db, a, c, period) && w0.db.calls[Slot(a.run, c.key)].status == Ok(text, cost)
    ensures steps <= longer && w == Reached(limit, longer)
    ensures var w0 := Reached(limit, steps);
            w.db.calls == w0.db.calls && w.log.issued == w0.log.issued && w.log.reserved == w0.log.reserved &&
            a in w.execs && w.execs[a] == Exec(Idle, w0.execs[a].seen + [SawText(c.key, text)])
  {
    longer, w := Play(limit, steps, Gate(a, c, period));
  }

  // ----- a send -----

  lemma PlayTake(limit: Option<nat>, steps: seq<Step>, a: Attempt, key: string, channel: Channel)
    returns (longer: seq<Step>, w: World)
    requires var w0 := Reached(limit, steps); IsIdle(w0, a) && Fenced(w0.db, a) && Slot(a.run, key) !in w0.db.actions
    ensures steps <= longer && w == Reached(limit, longer)
    ensures var w0, row := Reached(limit, steps), Action(TokenOf(a), channel, Reached(limit, steps).db.now, ActionStatus.Sending);
            w == w0.(db := w0.db.(actions := w0.db.actions[Slot(a.run, key) := row]),
                     execs := w0.execs[a := Exec(InSend(key, w0.db.now, None), w0.execs[a].seen)])
  {
    longer, w := Play(limit, steps, Take(a, key, channel));
  }

  lemma PlayDeliver(limit: Option<nat>, steps: seq<Step>, a: Attempt, result: Option<string>) returns (longer: seq<Step>, w: World)
    requires var w0 := Reached(limit, steps); a in w0.execs && w0.execs[a].phase.InSend? && w0.execs[a].phase.sent.None?
    ensures steps <= longer && w == Reached(limit, longer)
    ensures var w0, phase := Reached(limit, steps), Reached(limit, steps).execs[a].phase;
            var s := Slot(a.run, phase.action);
            w.db == w0.db && a in w.execs && w.execs == w0.execs[a := Exec(phase.(sent := Some(result)), w0.execs[a].seen)] &&
            w.log == w0.log.(receipts := w0.log.receipts[s := Receipts(w0, s) + [Receipt(phase.takenAt, w0.db.now)]])
  {
    longer, w := Play(limit, steps, Deliver(a, result));
  }

  lemma PlaySettle(limit: Option<nat>, steps: seq<Step>, a: Attempt) returns (longer: seq<Step>, w: World)
    requires var w0 := Reached(limit, steps); a in w0.execs && w0.execs[a].phase.InSend? && w0.execs[a].phase.sent.Some?
    ensures steps <= longer && w == Reached(limit, longer)
    ensures var w0, phase := Reached(limit, steps), Reached(limit, steps).execs[a].phase;
            w.db == Actions.SettleTx(w0.db, a, phase.action, phase.sent.value) && w.log == w0.log && IsIdle(w, a)
  {
    longer, w := Play(limit, steps, Settle(a));
  }

  /** A send of a new action reaches the provider once, and the row says what it sent. */
  lemma SendIsCarriedOut(limit: Option<nat>, steps: seq<Step>, a: Attempt, key: string, channel: Channel, result: string)
    returns (longer: seq<Step>, w: World)
    requires var w0 := Reached(limit, steps); IsIdle(w0, a) && Fenced(w0.db, a) && Slot(a.run, key) !in w0.db.actions
    ensures steps <= longer && w == Reached(limit, longer)
    ensures var w0, s := Reached(limit, steps), Slot(a.run, key);
            s in w.db.actions && w.db.actions[s] == Action(TokenOf(a), channel, w0.db.now, ActionStatus.Sent(result)) &&
            Receipts(w, s) == Receipts(w0, s) + [Receipt(w0.db.now, w0.db.now)] && w.db.tasks == w0.db.tasks && IsIdle(w, a)
  {
    longer, w := PlayTake(limit, steps, a, key, channel);
    assert Receipts(w, Slot(a.run, key)) == Receipts(Reached(limit, steps), Slot(a.run, key));
    longer, w := PlayDeliver(limit, longer, a, Some(result));
    longer, w := PlaySettle(limit, longer, a);
  }

  // ----- a decision -----

  lemma PlayNewAsk(limit: Option<nat>, steps: seq<Step>, a: Attempt, key: string, draft: string, assignee: Option<string>, id: nat)
    returns (longer: seq<Step>, w: World)
    requires var w0 := Reached(limit, steps);
             IsIdle(w0, a) && Fenced(w0.db, a) && Slot(a.run, key) !in w0.db.gates && id !in w0.db.approvals
    ensures steps <= longer && w == Reached(limit, longer)
    ensures var w0, s := Reached(limit, steps), Slot(a.run, key);
            w == w0.(db := w0.db.(approvals := w0.db.approvals[id := Approval(s, assignee, draft, None, None)],
                                  gates := w0.db.gates[s := id]),
                     execs := w0.execs[a := Exec(AtGate(key), w0.execs[a].seen)])
  {
    longer, w := Play(limit, steps, Ask(a, key, draft, assignee, id));
  }

  lemma PlaySuspend(limit: Option<nat>, steps: seq<Step>, a: Attempt) returns (longer: seq<Step>, w: World)
    requires var w0 := Reached(limit, steps); a in w0.execs && w0.execs[a].phase.AtGate? && Fenced(w0.db, a)
    ensures steps <= longer && w == Reached(limit, longer)
    ensures var w0 := Reached(limit, steps);
            w.db == w0.db.(runs := w0.db.runs[a.run := w0.db.runs[a.run].(status := Waiting)]) && w.execs == w0.execs - {a} &&
            w.stranded == w0.stranded
  {
    longer, w := Play(limit, steps, Suspend(a));
  }

  /** A flow that comes to a gate nobody has decided waits there, with its run waiting. */
  lemma FlowWaits(limit: Option<nat>, steps: seq<Step>, a: Attempt, key: string, draft: string, assignee: Option<string>, id: nat)
    returns (longer: seq<Step>, w: World)
    requires var w0 := Reached(limit, steps);
             IsIdle(w0, a) && Fenced(w0.db, a) && Slot(a.run, key) !in w0.db.gates && id !in w0.db.approvals
    ensures steps <= longer && w == Reached(limit, longer)
    ensures var w0, s := Reached(limit, steps), Slot(a.run, key);
            s in w.db.gates && w.db.gates[s] == id && id in w.db.approvals &&
            w.db.approvals[id] == Approval(s, assignee, draft, None, None) && a !in w.execs &&
            a.run in w.db.runs && w.db.runs[a.run] == w0.db.runs[a.run].(status := Waiting) &&
            w.db.workflows == w0.db.workflows && w.stranded == w0.stranded
  {
    longer, w := PlayNewAsk(limit, steps, a, key, draft, assignee, id);
    longer, w := PlaySuspend(limit, longer, a);
  }

  /** One approval, decided by somebody who may, in a run that can move. */
  predicate CanDecide(w: World, run: string, key: string, id: nat, q: DecideRequest) {
    run in w.db.runs && AttemptToken(run, w.db.runs[run].attempt + 1) !in w.db.workflows &&
    Attempt(run, w.db.runs[run].attempt + 1) !in w.execs && q.ids == {id} &&
    Slot(run, key) in w.db.gates && w.db.gates[Slot(run, key)] == id && id in w.db.approvals &&
    var row := w.db.approvals[id];
    row.slot == Slot(run, key) && row.decision.None? && (id in q.edits ==> q.edits[id].Parsed?) &&
    (q.via in {Via.Archive, Via.Sweep} || row.assignee.None? || row.assignee == q.user || q.admin)
  }

  /** The run on its next attempt, and the row decided for it. */
  predicate IsDecided(w: World, w': World, run: string, id: nat, q: DecideRequest)
    requires run in w.db.runs && id in w.db.approvals
  {
    var n, row := w.db.runs[run].attempt + 1, w.db.approvals[id];
    run in w'.db.runs && w'.db.runs[run] == Run(n, AttemptToken(run, n), Running) && id in w'.db.approvals &&
    w'.db.approvals[id] == row.(
      decision := Some(Decision(q.verdict, q.user, q.via, q.key, None, AttemptToken(run, n))),
      edited := if id in q.edits && q.edits[id].Parsed? then Some(q.edits[id].draft) else row.edited)
  }

  lemma PlayDecide(limit: Option<nat>, steps: seq<Step>, run: string, key: string, id: nat, q: DecideRequest)
    returns (longer: seq<Step>, w: World)
    requires CanDecide(Reached(limit, steps), run, key, id, q)
    ensures steps <= longer && w == Reached(limit, longer)
    ensures var w0 := Reached(limit, steps);
            IsDecided(w0, w, run, id, q) && w.db.gates == w0.db.gates && w.execs == w0.execs && w.stranded == w0.stranded
  {
    hide DecideStep;
    hide IsDecided;
    var w0 := Reached(limit, steps);
    DecisionGoesThrough(w0, run, key, id, q);
    longer, w := Play(limit, steps, Decide(q, {run}));
  }

  lemma DecisionGoesThrough(w: World, run: string, key: string, id: nat, q: DecideRequest)
    requires CanDecide(w, run, key, id, q)
    ensures var w' := DecideStep(w, q, {run});
            IsDecided(w, w', run, id, q) && w'.db.gates == w.db.gates && w'.execs == w.execs && w'.stranded == w.stranded
  {
    assert CanBump(w.db, {run}) && Decidable(w.db, q);
    assert Locked(w.db, q.ids) == {id};
    assert (set i | i in {id} && CarriesKey(w.db.approvals[i], q.key)) == {};
  }

  lemma PlayToldAsk(limit: Option<nat>, steps: seq<Step>, a: Attempt, key: string, draft: string, assignee: Option<string>,
                    other: nat)
    returns (longer: seq<Step>, w: World)
    requires var w0 := Reached(limit, steps);
             IsIdle(w0, a) && Fenced(w0.db, a) && Slot(a.run, key) in w0.db.gates &&
             w0.db.gates[Slot(a.run, key)] in w0.db.approvals && w0.db.approvals[w0.db.gates[Slot(a.run, key)]].decision.Some?
    ensures steps <= longer && w == Reached(limit, longer)
    ensures var w0 := Reached(limit, steps);
            var row := w0.db.approvals[w0.db.gates[Slot(a.run, key)]];
            a in w.execs && w.db == w0.db &&
            w.execs[a] == Exec(Idle, w0.execs[a].seen + [SawDecision(key, row.decision.value,
              if row.edited.Some? then row.edited.value else row.draft)])
  {
    longer, w := Play(limit, steps, Ask(a, key, draft, assignee, other));
  }

  /** Once it is decided its run goes on with its next attempt, which is told the decision when it comes to the gate. */
  lemma DecisionIsTold(limit: Option<nat>, steps: seq<Step>, run: string, key: string, id: nat, q: DecideRequest,
                       draft: string, assignee: Option<string>, other: nat)
    returns (decided: seq<Step>, longer: seq<Step>, w: World)
    requires CanDecide(Reached(limit, steps), run, key, id, q)
    ensures steps <= decided <= longer && w == Reached(limit, longer)
    ensures IsDecided(Reached(limit, steps), Reached(limit, decided), run, id, q)
    ensures var w0, a := Reached(limit, steps), Attempt(run, Reached(limit, steps).db.runs[run].attempt + 1);
            a in w.execs && w.execs[a] == Exec(Idle, [SawDecision(key,
              Decision(q.verdict, q.user, q.via, q.key, None, AttemptToken(run, a.n)),
              if id in q.edits && q.edits[id].Parsed? then q.edits[id].draft
              else if w0.db.approvals[id].edited.Some? then w0.db.approvals[id].edited.value else w0.db.approvals[id].draft)])
  {
    var a := Attempt(run, Reached(limit, steps).db.runs[run].attempt + 1);
    decided, w := PlayDecide(limit, steps, run, key, id, q);
    longer, w := PlayClaim(limit, decided, a);
    longer, w := PlayToldAsk(limit, longer, a, key, draft, assignee, other);
  }
}
