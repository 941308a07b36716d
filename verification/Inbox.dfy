// Approvals over whole runs: no decision is lost, none is taken twice, and no run sleeps past one.
module Inbox {
  import opened Wrappers
  import opened Tokens
  import opened Tables
  import opened Runs
  import opened Ledger
  import opened Approvals
  import opened Worlds
  import opened Fences
  import Actions

  /** A gate keeps its approval, and an approval that left `pending` never changes again. */
  predicate RowPersists(db: Db, db': Db, i: nat)
    requires i in db.approvals
  {
    i in db'.approvals && db'.approvals[i].slot == db.approvals[i].slot &&
    (!db.approvals[i].Pending() ==> db'.approvals[i] == db.approvals[i])
  }

  ghost predicate DecisionsPersist(db: Db, db': Db) {
    (forall s | s in db.gates :: s in db'.gates && db'.gates[s] == db.gates[s]) &&
    (forall i {:trigger RowPersists(db, db', i)} | i in db.approvals :: RowPersists(db, db', i))
  }

  /** No approval moved, no execution reached a gate, and no run went to sleep or changed its bed. */
  ghost predicate Restful(w: World, w': World) {
    w'.db.approvals == w.db.approvals && w'.db.gates == w.db.gates && w'.log.suspended == w.log.suspended &&
    (forall a | a in w'.execs && w'.execs[a].phase.AtGate? ::
       a in w.execs && w'.execs[a].phase == w.execs[a].phase) &&
    (forall r | r in w.db.runs :: r in w'.db.runs && w.db.runs[r].attempt <= w'.db.runs[r].attempt) &&
    (forall r | r in w'.db.runs && w'.db.runs[r].status == Waiting ::
       r in w.db.runs && w.db.runs[r].status == Waiting)
  }

  lemma CallStepsRest(w: World, step: Step)
    requires step.Gate? || step.Issue? || step.Return? || step.Record? || step.LoseRecord? || step.Crash?
    ensures Restful(w, Next(w, step))
  {
  }

  lemma SendStepsRest(w: World, step: Step)
    requires step.Take? || step.Deliver? || step.Settle?
    ensures Restful(w, Next(w, step))
  {
  }

  lemma StatusStepsRest(w: World, step: Step)
    requires step.Claim? || step.Conclude? || step.MarkEnded?
    ensures Restful(w, Next(w, step))
  {
  }

  lemma ControlStepsRest(w: World, step: Step)
    requires step.Start? || step.Bump? || step.Hygiene? || step.Tick? ||
             step.SetPaused? || step.SetBudget?
    ensures Restful(w, Next(w, step))
  {
  }

  /** Only gates, what they suspend and decisions ever move the inbox. */
  lemma OtherStepsRest(w: World, step: Step)
    requires !step.Ask? && !step.Decide? && !step.Suspend?
    ensures Restful(w, Next(w, step))
  {
    if step.Gate? || step.Issue? || step.Return? || step.Record? || step.LoseRecord? || step.Crash? {
      CallStepsRest(w, step);
    } else if step.Take? || step.Deliver? || step.Settle? {
      SendStepsRest(w, step);
    } else if step.Claim? || step.Conclude? || step.MarkEnded? {
      StatusStepsRest(w, step);
    } else {
      ControlStepsRest(w, step);
    }
  }

  lemma DecidePersists(db: Db, q: DecideRequest, runs: set<string>)
    requires DecideAnswer(db, q, runs).Fresh?
    ensures DecisionsPersist(db, DecidedDb(db, q, runs))
  {
    forall i | i in db.approvals ensures RowPersists(db, DecidedDb(db, q, runs), i) {
      assert i in q.ids ==> Acceptable(db.approvals[i], i, q);
    }
  }

  lemma DecideStepPersists(w: World, q: DecideRequest, scouted: set<string>)
    ensures DecisionsPersist(w.db, DecideStep(w, q, scouted).db)
  {
    if DecideAnswer(w.db, q, scouted).Fresh? { DecidePersists(w.db, q, scouted); }
  }

  lemma AskPersists(w: World, a: Attempt, key: string, draft: string, assignee: Option<string>, id: nat)
    ensures DecisionsPersist(w.db, AskStep(w, a, key, draft, assignee, id).db)
  {
    assert DecisionsPersist(w.db, AskTx(w.db, a, key, draft, assignee, id).0);
  }

  lemma SuspendPersists(w: World, a: Attempt)
    ensures DecisionsPersist(w.db, SuspendStep(w, a).db)
  {
  }

  lemma GateStepPersists(w: World, step: Step)
    requires step.Ask? || step.Suspend?
    ensures DecisionsPersist(w.db, Next(w, step).db)
  {
    match step
    case Ask(a, key, draft, assignee, id) => AskPersists(w, a, key, draft, assignee, id);
    case Suspend(a) => SuspendPersists(w, a);
  }

  lemma StepKeepsDecisions(w: World, step: Step)
    ensures DecisionsPersist(w.db, Next(w, step).db)
  {
    match step
    case Decide(q, scouted) => DecideStepPersists(w, q, scouted);
    case Ask(_, _, _, _, _) => GateStepPersists(w, step);
    case Suspend(_) => GateStepPersists(w, step);
    case _ => OtherStepsRest(w, step);
  }

  lemma PersistenceIsTransitive(db1: Db, db2: Db, db3: Db)
    requires DecisionsPersist(db1, db2) && DecisionsPersist(db2, db3)
    ensures DecisionsPersist(db1, db3)
  {
    forall i | i in db1.approvals ensures RowPersists(db1, db3, i) {
      assert RowPersists(db1, db2, i) && RowPersists(db2, db3, i);
    }
  }

  lemma {:induction false} DecisionsOutlive(w: World, steps: seq<Step>)
    ensures DecisionsPersist(w.db, After(w, steps).db)
    decreases |steps|
  {
    if steps == [] {
      forall i | i in w.db.approvals ensures RowPersists(w.db, w.db, i) {}
    } else {
      var before := After(w, steps[..|steps| - 1]);
      DecisionsOutlive(w, steps[..|steps| - 1]);
      StepKeepsDecisions(before, steps[|steps| - 1]);
      PersistenceIsTransitive(w.db, before.db, Next(before, steps[|steps| - 1]).db);
    }
  }

  // ----- no lost wakeup -----

  /** The gate's approval is there and still pending. */
  predicate Asking(db: Db, s: Slot) {
    s in db.gates && db.gates[s] in db.approvals && db.approvals[db.gates[s]].Pending()
  }

  predicate GateOk(db: Db, s: Slot)
    requires s in db.gates
  {
    db.gates[s] in db.approvals && db.approvals[db.gates[s]].slot == s
  }

  /** A decision names the attempt it enqueued, which its run has reached. */
  predicate ResumedBy(db: Db, row: Approval, n: pos) {
    row.slot.run in db.runs && 1 < n <= db.runs[row.slot.run].attempt &&
    row.decision.Some? && row.decision.value.resume == AttemptToken(row.slot.run, n)
  }

  ghost predicate ApprovalOk(db: Db, i: nat)
    requires i in db.approvals
  {
    var row := db.approvals[i];
    row.slot in db.gates && db.gates[row.slot] == i && row.slot.run in db.runs &&
    (row.decision.Some? ==>
       row.decision.value.resume in db.workflows && exists n: pos {:trigger ResumedBy(db, row, n)} :: ResumedBy(db, row, n))
  }

  predicate WaiterOk(w: World, a: Attempt)
    requires a in w.execs
  {
    w.execs[a].phase.AtGate? && IsCurrent(w, a) ==> Asking(w.db, Slot(a.run, w.execs[a].phase.gate))
  }

  predicate SleeperOk(w: World, run: string)
    requires run in w.db.runs
  {
    w.db.runs[run].status == Waiting ==>
      run in w.log.suspended && Asking(w.db, Slot(run, w.log.suspended[run]))
  }

  ghost predicate Filed(db: Db) {
    (forall s {:trigger GateOk(db, s)} | s in db.gates :: GateOk(db, s)) &&
    (forall i {:trigger ApprovalOk(db, i)} | i in db.approvals :: ApprovalOk(db, i))
  }

  ghost predicate Awake(w: World) {
    (forall a {:trigger WaiterOk(w, a)} | a in w.execs :: WaiterOk(w, a)) &&
    (forall r {:trigger SleeperOk(w, r)} | r in w.db.runs :: SleeperOk(w, r))
  }

  lemma GrowthKeepsFiled(db: Db, db': Db)
    requires Filed(db) && Grows(db, db') && db'.approvals == db.approvals && db'.gates == db.gates
    ensures Filed(db')
  {
    forall s | s in db'.gates ensures GateOk(db', s) { assert GateOk(db, s); }
    forall i | i in db'.approvals ensures ApprovalOk(db', i) {
      assert ApprovalOk(db, i);
      if db.approvals[i].decision.Some? {
        var n: pos :| ResumedBy(db, db.approvals[i], n);
        assert ResumedBy(db', db.approvals[i], n);
      }
    }
  }

  /** A decided row stays as it is, its resume enqueued. */
  lemma AskKeepsApproval(db: Db, a: Attempt, key: string, draft: string, assignee: Option<string>, id: nat, i: nat)
    requires i in db.approvals && ApprovalOk(db, i)
    ensures ApprovalOk(AskTx(db, a, key, draft, assignee, id).0, i)
  {
    var db' := AskTx(db, a, key, draft, assignee, id).0;
    if db.approvals[i].decision.Some? {
      var n: pos :| ResumedBy(db, db.approvals[i], n);
      assert ResumedBy(db', db.approvals[i], n);
    }
  }

  lemma AskKeepsFiled(db: Db, a: Attempt, key: string, draft: string, assignee: Option<string>, id: nat)
    requires Filed(db)
    ensures Filed(AskTx(db, a, key, draft, assignee, id).0)
  {
    var db' := AskTx(db, a, key, draft, assignee, id).0;
    forall s | s in db'.gates ensures GateOk(db', s) { assert s in db.gates ==> GateOk(db, s); }
    forall i | i in db'.approvals ensures ApprovalOk(db', i) {
      if i in db.approvals {
        assert ApprovalOk(db, i);
        AskKeepsApproval(db, a, key, draft, assignee, id, i);
      }
    }
  }

  lemma DecideKeepsFiled(db: Db, q: DecideRequest, runs: set<string>)
    requires Filed(db) && DecideAnswer(db, q, runs).Fresh?
    ensures Filed(DecidedDb(db, q, runs))
  {
    var db' := DecidedDb(db, q, runs);
    forall s | s in db'.gates ensures GateOk(db', s) { assert GateOk(db, s); }
    forall i | i in db'.approvals ensures ApprovalOk(db', i) {
      assert ApprovalOk(db, i);
      var run := db.approvals[i].slot.run;
      if i in q.ids {
        assert i in Locked(db, q.ids);
        assert ResumedBy(db', db'.approvals[i], db.runs[run].attempt + 1);
      } else if db.approvals[i].decision.Some? {
        var n: pos :| ResumedBy(db, db.approvals[i], n);
        assert ResumedBy(db', db'.approvals[i], n);
      }
    }
  }

  lemma OtherStepsKeepFiled(w: World, step: Step)
    requires Filed(w.db) && !step.Ask? && !step.Decide?
    ensures Filed(Next(w, step).db)
  {
    if !step.Suspend? { OtherStepsRest(w, step); }
    StepGrows(w, step);
    GrowthKeepsFiled(w.db, Next(w, step).db);
  }

  lemma StepKeepsFiled(w: World, step: Step)
    requires Filed(w.db)
    ensures Filed(Next(w, step).db)
  {
    match step
    case Ask(a, key, draft, assignee, id) => AskKeepsFiled(w.db, a, key, draft, assignee, id);
    case Decide(q, scouted) => if Next(w, step) != w { DecideKeepsFiled(w.db, q, scouted); }
    case _ => OtherStepsKeepFiled(w, step);
  }

  lemma RestKeepsAwake(w: World, w': World)
    requires Tokened(w) && Awake(w) && Restful(w, w')
    ensures Awake(w')
  {
    forall a | a in w'.execs ensures WaiterOk(w', a) {
      if w'.execs[a].phase.AtGate? { assert WaiterOk(w, a) && ExecOk(w, a); }
    }
    forall r | r in w'.db.runs ensures SleeperOk(w', r) { assert r in w.db.runs ==> SleeperOk(w, r); }
  }

  lemma AskedStays(db: Db, a: Attempt, key: string, draft: string, assignee: Option<string>, id: nat, s: Slot)
    requires Asking(db, s)
    ensures Asking(AskTx(db, a, key, draft, assignee, id).0, s)
  {
  }

  /** An execution stops at a gate it found pending in the same transaction. */
  lemma AskKeepsAwake(w: World, a: Attempt, key: string, draft: string, assignee: Option<string>, id: nat)
    requires Filed(w.db) && Awake(w)
    ensures Awake(AskStep(w, a, key, draft, assignee, id))
  {
    var w' := AskStep(w, a, key, draft, assignee, id);
    hide LedgerQuiet;
    hide OutboxStays;
    if IsIdle(w, a) {
      forall b | b in w'.execs ensures WaiterOk(w', b) {
        assert WaiterOk(w, b);
        if b != a && WaitsAt(w, b) { AskedStays(w.db, a, key, draft, assignee, id, Slot(b.run, w.execs[b].phase.gate)); }
      }
      forall r | r in w'.db.runs ensures SleeperOk(w', r) {
        assert SleeperOk(w, r);
        if w.db.runs[r].status == Waiting { AskedStays(w.db, a, key, draft, assignee, id, Slot(r, w.log.suspended[r])); }
      }
    }
  }

  predicate WaitsAt(w: World, a: Attempt) { a in w.execs && w.execs[a].phase.AtGate? && IsCurrent(w, a) }

  /** The conclusion is fenced: what the gate read is still so, or the write matches no row. */
  lemma SuspendKeepsAwake(w: World, a: Attempt)
    requires Tokened(w) && Awake(w)
    ensures Awake(SuspendStep(w, a))
  {
    var w' := SuspendStep(w, a);
    FenceIsCurrency(w, a);
    assert a in w.execs ==> WaiterOk(w, a);
    forall b | b in w'.execs ensures WaiterOk(w', b) { assert WaiterOk(w, b); }
    forall r | r in w'.db.runs ensures SleeperOk(w', r) { assert SleeperOk(w, r); }
  }

  /** A decision wakes its run in the transaction that takes it. */
  lemma DecideKeepsAwake(w: World, q: DecideRequest, scouted: set<string>)
    requires Tokened(w) && Filed(w.db) && Awake(w) && DecideAnswer(w.db, q, scouted).Fresh?
    ensures Awake(DecideStep(w, q, scouted))
  {
    var w' := DecideStep(w, q, scouted);
    forall i | i in q.ids && i in w.db.approvals ensures w.db.approvals[i].slot.run in scouted {
      assert i in Locked(w.db, q.ids);
    }
    forall a | a in w'.execs ensures WaiterOk(w', a) {
      assert WaiterOk(w, a) && ExecOk(w, a);
      if w.execs[a].phase.AtGate? && IsCurrent(w', a) { AskedUntouched(w, q, scouted, Slot(a.run, w.execs[a].phase.gate)); }
    }
    forall r | r in w'.db.runs ensures SleeperOk(w', r) {
      assert SleeperOk(w, r);
      if w'.db.runs[r].status == Waiting { AskedUntouched(w, q, scouted, Slot(r, w.log.suspended[r])); }
    }
  }

  lemma AskedUntouched(w: World, q: DecideRequest, scouted: set<string>, s: Slot)
    requires Filed(w.db) && Asking(w.db, s) && s.run !in scouted
    requires forall i | i in q.ids && i in w.db.approvals :: w.db.approvals[i].slot.run in scouted
    ensures Asking(DecidedDb(w.db, q, scouted), s)
  {
    assert GateOk(w.db, s);
  }

  lemma OtherStepsKeepAwake(w: World, step: Step)
    requires Tokened(w) && Awake(w) && !step.Ask? && !step.Suspend? && !step.Decide?
    ensures Awake(Next(w, step))
  {
    OtherStepsRest(w, step);
    RestKeepsAwake(w, Next(w, step));
  }

  lemma StepKeepsAwake(w: World, step: Step)
    requires Tokened(w) && Filed(w.db) && Awake(w)
    ensures Awake(Next(w, step))
  {
    match step
    case Ask(a, key, draft, assignee, id) => AskKeepsAwake(w, a, key, draft, assignee, id);
    case Suspend(a) => SuspendKeepsAwake(w, a);
    case Decide(q, scouted) => if Next(w, step) != w { DecideKeepsAwake(w, q, scouted); }
    case _ => OtherStepsKeepAwake(w, step);
  }

  lemma {:induction false} InboxIsSound(limit: Option<nat>, steps: seq<Step>)
    ensures Filed(Reached(limit, steps).db) && Awake(Reached(limit, steps))
    decreases |steps|
  {
    if steps != [] {
      var before := Reached(limit, steps[..|steps| - 1]);
      InboxIsSound(limit, steps[..|steps| - 1]);
      RunsAreTokened(limit, steps[..|steps| - 1]);
      StepKeepsFiled(before, steps[|steps| - 1]);
      StepKeepsAwake(before, steps[|steps| - 1]);
    }
  }

  /**
   * A run that sleeps has something to wait for: whatever the interleaving of a gate's read, a
   * decision's bump and the fenced conclusion, the approval it suspended on is still pending.
   */
  lemma NoLostWakeup(limit: Option<nat>, steps: seq<Step>, run: string)
    requires var db := Reached(limit, steps).db; run in db.runs && db.runs[run].status == Waiting
    ensures var w := Reached(limit, steps);
            run in w.log.suspended && Asking(w.db, Slot(run, w.log.suspended[run]))
  {
    InboxIsSound(limit, steps);
    assert SleeperOk(Reached(limit, steps), run);
  }

  /** Every decision ever taken enqueued an attempt of its run, and the run is on it or past it. */
  lemma DecidedIsResumed(limit: Option<nat>, steps: seq<Step>, i: nat) returns (n: pos)
    requires var db := Reached(limit, steps).db; i in db.approvals && !db.approvals[i].Pending()
    ensures var db := Reached(limit, steps).db;
            db.approvals[i].decision.value.resume in db.workflows && ResumedBy(db, db.approvals[i], n)
  {
    var db := Reached(limit, steps).db;
    InboxIsSound(limit, steps);
    assert ApprovalOk(db, i);
    n :| ResumedBy(db, db.approvals[i], n);
  }

  // ----- decided exactly once -----

  /** What one fresh batch does to the tables, run by run and row by row, and to nothing else. */
  ghost predicate DecidedTogether(db: Db, db': Db, q: DecideRequest, runs: set<string>) {
    db' == db.(runs := db'.runs, workflows := db'.workflows, approvals := db'.approvals) &&
    (forall i | i in q.ids :: i in db.approvals && db.approvals[i].Pending() && i in db'.approvals &&
       var run := db.approvals[i].slot.run;
       run in runs && run in db'.runs && db'.approvals[i] == db.approvals[i].(
         decision := Some(Decision(q.verdict, q.user, q.via, q.key, BatchOf(q), db'.runs[run].current)),
         edited := if i in q.edits && q.edits[i].Parsed? then Some(q.edits[i].draft) else db.approvals[i].edited)) &&
    (forall i | i in db.approvals && i !in q.ids :: i in db'.approvals && db'.approvals[i] == db.approvals[i]) &&
    db'.approvals.Keys == db.approvals.Keys && db'.runs.Keys == db.runs.Keys &&
    (forall r | r in db.runs && r !in runs :: db'.runs[r] == db.runs[r]) &&
    (forall r | r in runs ::
       r in db.runs && db'.runs[r] == Run(db.runs[r].attempt + 1, NextToken(db, r), Running) &&
       db'.runs[r].current !in db.workflows) &&
    db'.workflows == db.workflows + set r | r in runs && r in db'.runs :: db'.runs[r].current
  }

  /** A batch decides exactly when every row is there and acceptable, in a locked run, and every run can move. */
  lemma FreshExactly(db: Db, q: DecideRequest, runs: set<string>)
    ensures DecideAnswer(db, q, runs).Fresh? <==>
            runs >= Scout(db, q.ids) && Decidable(db, q) && CanBump(db, runs)
  {
    var locked := Locked(db, q.ids);
    if DecideAnswer(db, q, runs).Fresh? {
      forall r | r in Scout(db, q.ids) ensures r in runs {
        var i :| i in q.ids && i in db.approvals && db.approvals[i].slot.run == r;
        assert i in locked;
      }
    }
    if runs >= Scout(db, q.ids) && Decidable(db, q) && CanBump(db, runs) {
      forall i | i in locked ensures !CarriesKey(db.approvals[i], q.key) { assert Acceptable(db.approvals[i], i, q); }
      forall i | i in locked ensures db.approvals[i].slot.run in runs { assert db.approvals[i].slot.run in Scout(db, q.ids); }
    }
  }

  /** And then it decides all of its rows, moving each run on once; otherwise nothing changes at all. */
  lemma AllOrNone(db: Db, q: DecideRequest, runs: set<string>)
    ensures var db' := DecideTx(db, q, runs);
            if runs >= Scout(db, q.ids) && Decidable(db, q) && CanBump(db, runs)
            then DecidedTogether(db, db', q, runs) else db' == db
  {
    FreshExactly(db, q, runs);
    if DecideAnswer(db, q, runs).Fresh? {
      var db' := DecideTx(db, q, runs);
      assert forall i | i in q.ids :: Acceptable(db.approvals[i], i, q) && db.approvals[i].slot.run in Scout(db, q.ids);
      assert db'.workflows == db.workflows + set r | r in runs && r in db'.runs :: db'.runs[r].current;
    }
  }

  lemma ScoutGrows(db: Db, db': Db, ids: set<nat>)
    requires DecisionsPersist(db, db')
    ensures Scout(db, ids) <= Scout(db', ids)
  {
    forall r | r in Scout(db, ids) ensures r in Scout(db', ids) {
      var i :| i in ids && i in db.approvals && db.approvals[i].slot.run == r;
      assert RowPersists(db, db', i);
    }
  }

  /**
   * The runs to lock are read before any lock is held. Rows never leave and never change run, so a
   * batch that gets through locked, and therefore bumps, exactly the runs its rows belong to.
   */
  lemma ScoutedExactly(w: World, later: seq<Step>, q: DecideRequest)
    requires DecideAnswer(After(w, later).db, q, Scout(w.db, q.ids)).Fresh?
    ensures Scout(w.db, q.ids) == Scout(After(w, later).db, q.ids)
  {
    DecisionsOutlive(w, later);
    ScoutGrows(w.db, After(w, later).db, q.ids);
    FreshExactly(After(w, later).db, q, Scout(w.db, q.ids));
  }

  /**
   * A call that repeats a decision key on any of the rows decided under it, however much later,
   * writes nothing and reads back what the first call answered for them.
   */
  lemma RepeatedKeyReplays(w: World, q: DecideRequest, runs: set<string>, later: seq<Step>,
                           again: DecideRequest, scouted: set<string>)
    requires DecideAnswer(w.db, q, runs).Fresh?
    requires again.key == q.key && again.ids <= q.ids && again.ids != {}
    requires var db := After(DecideStep(w, q, runs), later).db; Scout(db, again.ids) <= scouted
    ensures var first, db := DecideStep(w, q, runs).db, After(DecideStep(w, q, runs), later).db;
            DecideAnswer(db, again, scouted) == Replayed(AnswersOf(first, again.ids), BatchOf(q), Reattempts(db, scouted)) &&
            DecideTx(db, again, scouted) == db
  {
    var first, db := DecideStep(w, q, runs).db, After(DecideStep(w, q, runs), later).db;
    FreshExactly(w.db, q, runs);
    AllOrNone(w.db, q, runs);
    DecisionsOutlive(DecideStep(w, q, runs), later);
    forall i | i in q.ids ensures i in db.approvals && db.approvals[i] == first.approvals[i] {
      assert RowPersists(first, db, i);
    }
    SettledBatchReplays(first, db, q, again, scouted);
  }

  lemma SettledBatchReplays(first: Db, db: Db, q: DecideRequest, again: DecideRequest, scouted: set<string>)
    requires again.key == q.key && again.ids <= q.ids && again.ids != {} && Scout(db, again.ids) <= scouted
    requires forall i | i in q.ids :: i in first.approvals && i in db.approvals && db.approvals[i] == first.approvals[i] &&
               db.approvals[i].decision.Some? && db.approvals[i].decision.value.key == q.key &&
               db.approvals[i].decision.value.batch == BatchOf(q)
    ensures DecideAnswer(db, again, scouted) == Replayed(AnswersOf(first, again.ids), BatchOf(q), Reattempts(db, scouted))
  {
    var locked := Locked(db, again.ids);
    assert locked == again.ids;
    forall i | i in locked ensures CarriesKey(db.approvals[i], again.key) {}
    forall i | i in locked ensures db.approvals[i].slot.run in scouted {
      assert db.approvals[i].slot.run in Scout(db, again.ids);
    }
    assert (set i | i in locked && CarriesKey(db.approvals[i], again.key)) == locked;
    assert AnswersOf(db, locked) == AnswersOf(first, again.ids) by {
      forall x ensures x in AnswersOf(db, locked) <==> x in AnswersOf(first, again.ids) {
        if x in AnswersOf(db, locked) {
          var i :| i in locked && i in db.approvals && db.approvals[i].decision.Some? && x == AnswerOf(db, i);
          assert x == AnswerOf(first, i);
        }
        if x in AnswersOf(first, again.ids) {
          var i :| i in again.ids && i in first.approvals && first.approvals[i].decision.Some? && x == AnswerOf(first, i);
          assert x == AnswerOf(db, i);
        }
      }
    }
  }

  // ----- which attempts a replay names -----

  /** A run is on the attempt it was on, under the same token, or past it. */
  predicate MovedOn(db: Db, db': Db, r: string)
    requires r in db.runs
  {
    r in db'.runs && db.runs[r].attempt <= db'.runs[r].attempt &&
    (db.runs[r].attempt == db'.runs[r].attempt ==> db.runs[r].current == db'.runs[r].current)
  }

  ghost predicate RunsMovedOn(db: Db, db': Db) {
    forall r {:trigger MovedOn(db, db', r)} | r in db.runs :: MovedOn(db, db', r)
  }

  lemma BumpMovesOn(w: World, runs: set<string>)
    ensures RunsMovedOn(w.db, Bumped(w, runs).db)
  {
  }

  lemma DecideMovesOn(w: World, q: DecideRequest, scouted: set<string>)
    ensures RunsMovedOn(w.db, DecideStep(w, q, scouted).db)
  {
  }

  lemma StatusStepsMoveOn(w: World, step: Step)
    requires step.Start? || step.Claim? || step.Conclude? || step.MarkEnded? || step.Suspend?
    ensures RunsMovedOn(w.db, Next(w, step).db)
  {
  }

  lemma StepMovesOn(w: World, step: Step)
    ensures RunsMovedOn(w.db, Next(w, step).db)
  {
    match step
    case Bump(run) => BumpMovesOn(w, {run});
    case Decide(q, scouted) => DecideMovesOn(w, q, scouted);
    case _ =>
      if step.Start? || step.Claim? || step.Conclude? || step.MarkEnded? || step.Suspend? {
        StatusStepsMoveOn(w, step);
      } else {
        OtherStepsKeepRuns(w, step);
      }
  }

  lemma {:induction false} LaterMovesOn(w: World, steps: seq<Step>)
    ensures RunsMovedOn(w.db, After(w, steps).db)
    decreases |steps|
  {
    if steps != [] {
      var before := After(w, steps[..|steps| - 1]);
      LaterMovesOn(w, steps[..|steps| - 1]);
      StepMovesOn(before, steps[|steps| - 1]);
      forall r | r in w.db.runs ensures MovedOn(w.db, Next(before, steps[|steps| - 1]).db, r) {
        assert MovedOn(w.db, before.db, r) && MovedOn(before.db, Next(before, steps[|steps| - 1]).db, r);
      }
    }
  }

  /**
   * What it does not read back is the attempts: it names those the runs are on by then, which are
   * the ones the first call bumped them to exactly while no run of the batch has been bumped again.
   */
  lemma ReattemptsReplayExactly(w: World, q: DecideRequest, runs: set<string>, later: seq<Step>, scouted: set<string>)
    requires DecideAnswer(w.db, q, runs).Fresh? && scouted <= runs
    ensures var first, db := DecideStep(w, q, runs).db, After(DecideStep(w, q, runs), later).db;
            scouted <= first.runs.Keys && scouted <= db.runs.Keys &&
            (Reattempts(db, scouted) <= DecideAnswer(w.db, q, runs).reattempted <==>
               forall r | r in scouted :: db.runs[r].attempt == first.runs[r].attempt)
  {
    var first, db := DecideStep(w, q, runs).db, After(DecideStep(w, q, runs), later).db;
    FreshExactly(w.db, q, runs);
    LaterMovesOn(DecideStep(w, q, runs), later);
    forall r | r in scouted ensures MovedOn(first, db, r) {}
    assert scouted <= db.runs.Keys;
    SameAttempts(first, db, runs, scouted);
  }

  lemma SameAttempts(first: Db, db: Db, runs: set<string>, scouted: set<string>)
    requires forall r | r in scouted :: r in first.runs && MovedOn(first, db, r)
    requires scouted <= runs <= first.runs.Keys && scouted <= db.runs.Keys
    ensures Reattempts(db, scouted) <= Reattempts(first, runs) <==>
            forall r | r in scouted :: db.runs[r].attempt == first.runs[r].attempt
  {
    if Reattempts(db, scouted) <= Reattempts(first, runs) {
      forall r | r in scouted ensures db.runs[r].attempt == first.runs[r].attempt {
        assert Reattempt(r, db.runs[r].attempt, db.runs[r].current) in Reattempts(db, scouted);
      }
    }
  }
}
