// What a run's own transactions do to the tables: start, claim, conclude and the one bump path.
module Runs {
  import opened Tokens
  import opened Tables

  /** The enqueue of a taken id throws only under another flow's name; under the same one it is inert. */
  predicate CanStart(db: Db, run: string, sameFlow: bool) {
    run !in db.runs && (run in db.workflows ==> sameFlow)
  }

  /** `runs.start`: the row at attempt 1, with its workflow or with the one that has its id already. */
  function StartTx(db: Db, run: string, sameFlow: bool): Db {
    if CanStart(db, run, sameFlow) then
      db.(runs := db.runs[run := Run(1, AttemptToken(run, 1), Running)],
          workflows := db.workflows + {AttemptToken(run, 1)})
    else db
  }

  /** `claimRun` and `concludeRun`: a status write that matches no row once a bump moved the run. */
  function StatusTx(db: Db, a: Attempt, status: RunStatus): Db {
    if Fenced(db, a) then db.(runs := db.runs[a.run := db.runs[a.run].(status := status)]) else db
  }

  function NextToken(db: Db, run: string): string
    requires run in db.runs
  {
    AttemptToken(run, db.runs[run].attempt + 1)
  }

  /** Every run exists and the id its next attempt takes is not taken. */
  predicate CanBump(db: Db, runs: set<string>) {
    forall r | r in runs :: r in db.runs && NextToken(db, r) !in db.workflows
  }

  /** Every run of the set on its next attempt, with that attempt's workflow enqueued. */
  function Moved(db: Db, runs: set<string>): Db {
    db.(runs := map r | r in db.runs ::
          if r in runs then Run(db.runs[r].attempt + 1, NextToken(db, r), Running) else db.runs[r],
        workflows := db.workflows + set r | r in runs && r in db.runs :: NextToken(db, r))
  }

  /** `bumpAndEnqueueOn` for each run of a set, in one transaction: all of them move or none does. */
  function BumpTx(db: Db, runs: set<string>): Db {
    if CanBump(db, runs) then Moved(db, runs) else db
  }
}
