// Runs that start under an id another run's workflow has: DBOS takes the enqueue for that workflow,
// so the run has none of its own, and nothing executes it until it is bumped.
module Strandings {
  import opened Wrappers
  import opened Tokens
  import opened Tables
  import opened Runs
  import opened Worlds
  import opened Fences

  /** The run has come to this attempt, or past it. */
  predicate CameTo(db: Db, a: Attempt) { a.run in db.runs && a.n <= db.runs[a.run].attempt }

  /** The attempt's id is taken, and a run started under a later attempt's id is stranded. */
  predicate Rostered(w: World, a: Attempt) {
    CameTo(w.db, a) ==> TokenOf(a) in w.db.workflows && (a.n > 1 && TokenOf(a) in w.db.runs ==> TokenOf(a) in w.stranded)
  }

  ghost predicate AllRostered(w: World) {
    w.stranded <= w.db.runs.Keys &&
    (forall a {:trigger Owns(w, a)} | a in w.execs :: Owns(w, a)) &&
    (forall a {:trigger Rostered(w, a)} :: Rostered(w, a))
  }

  lemma StartKeepsRostered(w: World, run: string, sameFlow: bool)
    requires AllRostered(w) && forall a | a in w.execs :: CameTo(w.db, a)
    ensures AllRostered(StartStep(w, run, sameFlow))
  {
    var w' := StartStep(w, run, sameFlow);
    forall a | a in w'.execs ensures Owns(w', a) { assert Owns(w, a) && CameTo(w.db, a); }
    forall a ensures Rostered(w', a) { assert Rostered(w, a); }
  }

  /** An id that is about to be bumped to is no run's. */
  lemma BumpKeepsRostered(w: World, runs: set<string>)
    requires AllRostered(w)
    ensures AllRostered(Bumped(w, runs))
  {
    var w' := Bumped(w, runs);
    forall a | a in w'.execs ensures Owns(w', a) { assert Owns(w, a); }
    forall a ensures Rostered(w', a) {
      assert Rostered(w, a);
      if TokenOf(a) in w.db.runs { assert Rostered(w, Attempt(TokenOf(a), 1)); }
    }
  }

  /** Steps that start and bump nothing. */
  lemma OthersKeepRostered(w: World, w': World)
    requires AllRostered(w) && w'.stranded == w.stranded && w'.db.workflows == w.db.workflows
    requires w'.db.runs.Keys == w.db.runs.Keys && forall r | r in w.db.runs :: w'.db.runs[r].attempt == w.db.runs[r].attempt
    requires forall a | a in w'.execs :: a in w.execs || Owns(w, a)
    ensures AllRostered(w')
  {
    forall a | a in w'.execs ensures Owns(w', a) { assert a in w.execs ==> Owns(w, a); }
    forall a ensures Rostered(w', a) { assert Rostered(w, a); }
  }

  lemma StatusStepsKeepRostered(w: World, step: Step)
    requires AllRostered(w) && (step.Claim? || step.Conclude? || step.MarkEnded? || step.Suspend?)
    ensures AllRostered(Next(w, step))
  {
    OthersKeepRostered(w, Next(w, step));
  }

  lemma QuietStepsKeepStranded(w: World, step: Step)
    requires !step.Start?
    ensures Next(w, step).stranded == w.stranded
  {
  }

  lemma DecideKeepsRostered(w: World, step: Step)
    requires AllRostered(w) && step.Decide?
    ensures AllRostered(Next(w, step))
  {
    if Next(w, step) != w {
      BumpKeepsRostered(w, step.scouted);
      OthersKeepRostered(Bumped(w, step.scouted), Next(w, step));
    }
  }

  lemma QuietStepsKeepRostered(w: World, step: Step)
    requires AllRostered(w)
    requires !step.Start? && !step.Claim? && !step.Conclude? && !step.MarkEnded? && !step.Suspend? && !step.Bump? && !step.Decide?
    ensures AllRostered(Next(w, step))
  {
    OtherStepsKeepRuns(w, step);
    QuietStepsKeepStranded(w, step);
    OthersKeepRostered(w, Next(w, step));
  }

  lemma StepKeepsRostered(w: World, step: Step)
    requires AllRostered(w) && Tokened(w)
    ensures AllRostered(Next(w, step))
  {
    match step
    case Start(run, sameFlow) =>
      assert forall a | a in w.execs :: ExecOk(w, a);
      StartKeepsRostered(w, run, sameFlow);
    case Bump(run) => BumpKeepsRostered(w, {run});
    case Decide(_, _) => DecideKeepsRostered(w, step);
    case _ =>
      if step.Claim? || step.Conclude? || step.MarkEnded? || step.Suspend? {
        StatusStepsKeepRostered(w, step);
      } else {
        QuietStepsKeepRostered(w, step);
      }
  }

  lemma {:induction false} RunsAreRostered(limit: Option<nat>, steps: seq<Step>)
    ensures AllRostered(Reached(limit, steps))
    decreases |steps|
  {
    if steps == [] {
      forall a ensures Rostered(Init(limit), a) {}
    } else {
      RunsAreRostered(limit, steps[..|steps| - 1]);
      RunsAreTokened(limit, steps[..|steps| - 1]);
      StepKeepsRostered(Reached(limit, steps[..|steps| - 1]), steps[|steps| - 1]);
    }
  }

  /**
   * A run that starts gets a workflow of its own exactly when its id was free, and its id was taken
   * exactly when another run had come to a later attempt under it.
   */
  lemma StartOwnsExactly(limit: Option<nat>, steps: seq<Step>, run: string, sameFlow: bool)
    requires CanStart(Reached(limit, steps).db, run, sameFlow)
    ensures var w := Reached(limit, steps); var w' := Next(w, Start(run, sameFlow));
            run in w'.db.runs && (Owns(w', Attempt(run, 1)) <==> run !in w.db.workflows)
    ensures var w := Reached(limit, steps);
            run in w.db.workflows <==> exists a: Attempt {:trigger CameTo(w.db, a)} :: a.n > 1 && CameTo(w.db, a) && run == TokenOf(a)
  {
    var w := Reached(limit, steps);
    RunsAreRostered(limit, steps);
    RunsAreTokened(limit, steps);
    if run in w.db.workflows {
      assert Known(w.db, run);
      var a :| WorkflowOf(w.db, run, a);
      assert CameTo(w.db, a) && run == TokenOf(a) && a.n > 1;
    }
    if a: Attempt :| a.n > 1 && CameTo(w.db, a) && run == TokenOf(a) { assert Rostered(w, a); }
  }

  /** A run without a workflow of its own is executed by nobody at its first attempt, and no anomaly counts it. */
  lemma StrandedWaits(limit: Option<nat>, steps: seq<Step>, run: string)
    requires var w := Reached(limit, steps); run in w.stranded && run in w.db.runs && w.db.runs[run].attempt == 1
    ensures var w := Reached(limit, steps);
            (forall a | a in w.execs :: a.run != run) && Next(w, Claim(Attempt(run, 1))) == w && run !in Anomalies(w.db)
  {
    var w := Reached(limit, steps);
    RunsAreRostered(limit, steps);
    RunsAreTokened(limit, steps);
    NoAnomalies(limit, steps);
    forall a | a in w.execs ensures a.run != run { assert Owns(w, a) && ExecOk(w, a); }
  }

  /** DBOS executes one workflow id at most once at a time: two live executions are never of one id. */
  lemma OneExecutionPerWorkflow(limit: Option<nat>, steps: seq<Step>, a: Attempt, b: Attempt)
    requires var w := Reached(limit, steps); a in w.execs && b in w.execs && TokenOf(a) == TokenOf(b)
    ensures a == b
  {
    var w := Reached(limit, steps);
    RunsAreRostered(limit, steps);
    RunsAreTokened(limit, steps);
    assert Owns(w, a) && Owns(w, b) && ExecOk(w, a) && ExecOk(w, b) && Rostered(w, a) && Rostered(w, b);
    if a.run == b.run { TokenNamesAttempt(a.run, a.n, b.n); } else { TokensMeet(a.run, a.n, b.run, b.n); }
  }
}
