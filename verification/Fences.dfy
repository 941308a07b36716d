// The fencing token over whole runs: it always names the run's attempt, every token has its
// workflow row, and an execution passes the fence exactly while its run is on its attempt.
module Fences {
  import opened Wrappers
  import opened Tokens
  import opened Tables
  import opened Runs
  import opened Ledger
  import opened Approvals
  import opened Worlds

  predicate TokenOk(db: Db, run: string)
    requires run in db.runs
  {
    db.runs[run].current == AttemptToken(run, db.runs[run].attempt) && db.runs[run].current in db.workflows
  }

  /** A live execution belongs to an attempt its run reached, and the current one's run is going. */
  predicate ExecOk(w: World, a: Attempt) {
    a.run in w.db.runs && a.n <= w.db.runs[a.run].attempt &&
    (IsCurrent(w, a) ==> w.db.runs[a.run].status == Running)
  }

  ghost predicate Tokened(w: World) {
    (forall r {:trigger TokenOk(w.db, r)} | r in w.db.runs :: TokenOk(w.db, r)) &&
    (forall a {:trigger ExecOk(w, a)} | a in w.execs :: ExecOk(w, a))
  }

  lemma FenceIsCurrency(w: World, a: Attempt)
    requires Tokened(w)
    ensures Fenced(w.db, a) <==> IsCurrent(w, a)
  {
    if a.run in w.db.runs {
      assert TokenOk(w.db, a.run);
      TokenNamesAttempt(a.run, a.n, w.db.runs[a.run].attempt);
    }
  }

  lemma BumpKeepsTokened(w: World, runs: set<string>)
    requires Tokened(w)
    ensures Tokened(Bumped(w, runs))
  {
    var w' := Bumped(w, runs);
    forall r | r in w'.db.runs ensures TokenOk(w'.db, r) {
      assert TokenOk(w.db, r);
    }
    forall a | a in w'.execs ensures ExecOk(w', a) {
      assert ExecOk(w, a);
    }
  }

  lemma SameRunsKeepTokened(w: World, w': World)
    requires Tokened(w) && SameRuns(w, w')
    ensures Tokened(w')
  {
    forall a | a in w'.execs ensures ExecOk(w', a) { assert ExecOk(w, a); }
    forall r | r in w'.db.runs ensures TokenOk(w'.db, r) { assert TokenOk(w.db, r); }
  }

  lemma StatusKeepsTokened(w: World, a: Attempt, status: RunStatus, w': World)
    requires Tokened(w)
    requires w'.db.runs == StatusTx(w.db, a, status).runs && w'.db.workflows == w.db.workflows
    requires w'.execs.Keys <= w.execs.Keys + {a}
    requires status == Running || a !in w'.execs
    requires a in w'.execs ==> a in w.execs || Fenced(w.db, a)
    ensures Tokened(w')
  {
    FenceIsCurrency(w, a);
    forall r | r in w'.db.runs ensures TokenOk(w'.db, r) { assert TokenOk(w.db, r); }
    forall b | b in w'.execs ensures ExecOk(w', b) { assert b in w.execs ==> ExecOk(w, b); }
  }

  lemma StartKeepsTokened(w: World, run: string, sameFlow: bool)
    requires Tokened(w)
    ensures Tokened(StartStep(w, run, sameFlow))
  {
    var w' := StartStep(w, run, sameFlow);
    forall r | r in w'.db.runs ensures TokenOk(w'.db, r) { assert r in w.db.runs ==> TokenOk(w.db, r); }
    forall a | a in w'.execs ensures ExecOk(w', a) { assert ExecOk(w, a); }
  }

  lemma DecideKeepsTokened(w: World, batch: DecideRequest, scouted: set<string>)
    requires Tokened(w)
    ensures Tokened(DecideStep(w, batch, scouted))
  {
    var w' := DecideStep(w, batch, scouted);
    if w' != w {
      BumpKeepsTokened(w, scouted);
      assert SameRuns(Bumped(w, scouted), w');
      SameRunsKeepTokened(Bumped(w, scouted), w');
    }
  }

  lemma OtherStepsKeepRuns(w: World, step: Step)
    requires !step.Start? && !step.Claim? && !step.Conclude? && !step.MarkEnded? && !step.Suspend? && !step.Bump? && !step.Decide?
    ensures SameRuns(w, Next(w, step))
  {
  }

  lemma StatusStepsKeepTokened(w: World, step: Step)
    requires Tokened(w) && (step.Claim? || step.Conclude? || step.MarkEnded? || step.Suspend?)
    ensures Tokened(Next(w, step))
  {
    var w' := Next(w, step);
    var status := if step.Claim? then Running else if step.Suspend? then Waiting else step.status;
    if w' != w { StatusKeepsTokened(w, step.a, status, w'); }
  }

  lemma StepKeepsTokened(w: World, step: Step)
    requires Tokened(w)
    ensures Tokened(Next(w, step))
  {
    match step
    case Start(run, sameFlow) => StartKeepsTokened(w, run, sameFlow);
    case Bump(run) => BumpKeepsTokened(w, {run});
    case Decide(batch, scouted) => DecideKeepsTokened(w, batch, scouted);
    case _ =>
      if step.Claim? || step.Conclude? || step.MarkEnded? || step.Suspend? {
        StatusStepsKeepTokened(w, step);
      } else {
        OtherStepsKeepRuns(w, step);
        SameRunsKeepTokened(w, Next(w, step));
      }
  }

  /** Attempts move forward one at a time, workflow rows stay, and a new one is a run's current. */
  ghost predicate Grows(db: Db, db': Db) {
    (forall r | r in db.runs :: r in db'.runs && db.runs[r].attempt <= db'.runs[r].attempt <= db.runs[r].attempt + 1) &&
    (forall r | r in db'.runs :: r in db.runs || r in db'.workflows) &&
    db.workflows <= db'.workflows &&
    (forall t | t in db'.workflows && t !in db.workflows :: exists r :: r in db'.runs && db'.runs[r].current == t)
  }

  lemma BumpGrows(w: World, runs: set<string>)
    ensures Grows(w.db, Bumped(w, runs).db)
  {
    var db' := Bumped(w, runs).db;
    forall t | t in db'.workflows && t !in w.db.workflows ensures exists r :: r in db'.runs && db'.runs[r].current == t {
      var r :| r in runs && r in w.db.runs && t == NextToken(w.db, r);
      assert db'.runs[r].current == t;
    }
  }

  lemma StepGrows(w: World, step: Step)
    ensures Grows(w.db, Next(w, step).db)
  {
    var w' := Next(w, step);
    match step
    case Start(run, _) => if w'.db != w.db { assert w'.db.runs[run].current == run; }
    case Bump(run) => BumpGrows(w, {run});
    case Decide(batch, scouted) => BumpGrows(w, scouted);
    case _ => StatusStepsGrow(w, step);
  }

  /** No other step moves an attempt or enqueues a workflow. */
  lemma StatusStepsGrow(w: World, step: Step)
    requires !step.Start? && !step.Bump? && !step.Decide?
    ensures Grows(w.db, Next(w, step).db)
  {
    if !step.Claim? && !step.Conclude? && !step.MarkEnded? && !step.Suspend? { OtherStepsKeepRuns(w, step); }
  }

  /** Every workflow row is some attempt some run reached. */
  predicate WorkflowOf(db: Db, token: string, a: Attempt) {
    a.run in db.runs && a.n <= db.runs[a.run].attempt && token == TokenOf(a)
  }

  ghost predicate Known(db: Db, token: string) {
    exists a {:trigger WorkflowOf(db, token, a)} :: WorkflowOf(db, token, a)
  }

  ghost predicate WorkflowsKnown(db: Db) {
    (forall r | r in db.runs :: r in db.workflows) &&
    forall token {:trigger Known(db, token)} | token in db.workflows :: Known(db, token)
  }

  lemma OldWorkflowKnown(db: Db, db': Db, token: string)
    requires Known(db, token) && Grows(db, db')
    ensures Known(db', token)
  {
    var a :| WorkflowOf(db, token, a);
    assert WorkflowOf(db', token, a);
  }

  lemma CurrentWorkflowKnown(db: Db, run: string)
    requires run in db.runs && TokenOk(db, run)
    ensures Known(db, db.runs[run].current)
  {
    assert WorkflowOf(db, db.runs[run].current, Attempt(run, db.runs[run].attempt));
  }

  lemma GrowthKeepsKnown(db: Db, db': Db)
    requires WorkflowsKnown(db) && Grows(db, db')
    requires forall r {:trigger TokenOk(db', r)} | r in db'.runs :: TokenOk(db', r)
    ensures WorkflowsKnown(db')
  {
    forall token | token in db'.workflows ensures Known(db', token) {
      if token in db.workflows {
        assert Known(db, token);
        OldWorkflowKnown(db, db', token);
      } else {
        var run :| run in db'.runs && db'.runs[run].current == token;
        assert TokenOk(db', run);
        CurrentWorkflowKnown(db', run);
      }
    }
  }

  lemma {:induction false} RunsAreTokened(limit: Option<nat>, steps: seq<Step>)
    ensures Tokened(Reached(limit, steps)) && WorkflowsKnown(Reached(limit, steps).db)
    decreases |steps|
  {
    if steps != [] {
      var before, step := Reached(limit, steps[..|steps| - 1]), steps[|steps| - 1];
      RunsAreTokened(limit, steps[..|steps| - 1]);
      StepKeepsTokened(before, step);
      StepGrows(before, step);
      GrowthKeepsKnown(before.db, Next(before, step).db);
    }
  }

  /** `/api/status` counts a running run whose current workflow has no row. */
  function Anomalies(db: Db): set<string> {
    set r | r in db.runs && db.runs[r].status == Running && db.runs[r].current !in db.workflows
  }

  lemma NoAnomalies(limit: Option<nat>, steps: seq<Step>)
    ensures Anomalies(Reached(limit, steps).db) == {}
    ensures var db := Reached(limit, steps).db; forall r | r in db.runs :: db.runs[r].current in db.workflows
  {
    RunsAreTokened(limit, steps);
    var db := Reached(limit, steps).db;
    forall r | r in db.runs ensures db.runs[r].current in db.workflows { assert TokenOk(db, r); }
  }

  /** `WorkflowIdCollision` fires exactly when a run was started under the id the next attempt takes. */
  lemma CollisionExactly(limit: Option<nat>, steps: seq<Step>, run: string)
    requires run in Reached(limit, steps).db.runs
    ensures var db := Reached(limit, steps).db;
            NextToken(db, run) in db.workflows <==> NextToken(db, run) in db.runs
  {
    RunsAreTokened(limit, steps);
    KnownCollision(Reached(limit, steps).db, run);
  }

  lemma KnownCollision(db: Db, run: string)
    requires WorkflowsKnown(db) && run in db.runs
    ensures NextToken(db, run) in db.workflows <==> NextToken(db, run) in db.runs
  {
    var n, token := db.runs[run].attempt + 1, NextToken(db, run);
    if token in db.workflows {
      assert Known(db, token);
      var a :| WorkflowOf(db, token, a);
      TokenNamesAttempt(run, n, a.n);
      if a.run != run { TokensMeet(run, n, a.run, a.n); }
    }
  }
}
