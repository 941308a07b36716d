// The LLM call ledger: the budget gate, the completion and the provider's error, each one fenced
// transaction (packages/ai/src/llm-run.ts), and the one other writer of a budget row.
module Ledger {
  import opened Wrappers
  import opened Tokens
  import opened Tables
  import opened Sums

  /** What one `llm.run` asks the ledger for. */
  datatype CallRequest = CallRequest(key: string, inputHash: string, estimate: nat)

  datatype GateOutcome =
    | Stale
    | AppPaused
    | NotBootstrapped
    | KeyCollision
    | Cached(text: string)
    | StoredError(name: string, message: string)
    | BudgetExceeded
    | Reserved

  /** Only a row a live attempt can still complete holds back budget. */
  predicate Holds(db: Db, period: string, s: Slot) {
    s in db.calls && db.calls[s].status == Started && db.calls[s].period == period &&
    s.run in db.runs && db.calls[s].workflow == db.runs[s.run].current && db.runs[s.run].status == Running
  }

  function Hold(db: Db, period: string): Slot -> int {
    (s: Slot) => if Holds(db, period, s) then db.calls[s].estimate else 0
  }

  /** `spent_usd`, zero for a period no gate has opened. */
  function Spent(db: Db, period: string): int {
    if period in db.budgets then db.budgets[period].spent else 0
  }

  /** The gate's `reserved`: what every other row of the period holds back. */
  ghost function ReservedBeside(db: Db, period: string, own: Slot): int {
    Sum(db.calls.Keys - {own}, Hold(db, period))
  }

  /** What each row was estimated at. */
  function Estimates(calls: map<Slot, Call>): Slot -> int {
    (s: Slot) => if s in calls then calls[s].estimate else 0
  }

  /** The reservation is the SUM over the join the gate's statement makes. */
  lemma ReservationIsTheSum(db: Db, period: string, own: Slot)
    ensures ReservedBeside(db, period, own) ==
            Sum((set s | s in db.calls && s != own && db.calls[s].status == Started && db.calls[s].period == period &&
                  s.run in db.runs && db.runs[s.run].current == db.calls[s].workflow && db.runs[s.run].status == Running),
                Estimates(db.calls))
  {
    var live := set s | s in db.calls && s != own && db.calls[s].status == Started && db.calls[s].period == period &&
                  s.run in db.runs && db.runs[s.run].current == db.calls[s].workflow && db.runs[s.run].status == Running;
    Restricted(db.calls.Keys - {own}, Hold(db, period), live, Estimates(db.calls));
  }

  /** The first gate of a month creates its row; `ON CONFLICT DO NOTHING` keeps an existing one. */
  function WithPeriod(db: Db, period: string): map<string, Budget> {
    if period in db.budgets || db.defaultLimit.None? then db.budgets
    else db.budgets[period := Budget(db.defaultLimit.value, 0)]
  }

  ghost predicate Exceeds(db: Db, budget: Budget, period: string, own: Slot, estimate: nat) {
    budget.spent + ReservedBeside(db, period, own) + estimate > budget.limit
  }

  /** The row a gate leaves: a fresh one, or the old one re-entered under this attempt. */
  function Entered(db: Db, a: Attempt, c: CallRequest, period: string): Call {
    var s := Slot(a.run, c.key);
    if s in db.calls then
      db.calls[s].(status := Started, workflow := TokenOf(a), period := period, doubled := true)
    else
      Call(TokenOf(a), period, c.inputHash, c.estimate, Started, false)
  }

  /** What `openGate` answers: every check in the order it is made. */
  ghost function GateAnswer(db: Db, a: Attempt, c: CallRequest, period: string): GateOutcome {
    var s := Slot(a.run, c.key);
    var budgets := WithPeriod(db, period);
    if !Fenced(db, a) then Stale
    else if db.paused then AppPaused
    else if period !in budgets then NotBootstrapped
    else if s in db.calls && db.calls[s].inputHash != c.inputHash then KeyCollision
    else if s in db.calls && db.calls[s].status.Ok? then Cached(db.calls[s].status.text)
    else if s in db.calls && db.calls[s].status.Error? then
      StoredError(db.calls[s].status.name, db.calls[s].status.message)
    else if Exceeds(db, budgets[period], period, s, c.estimate) then BudgetExceeded
    else Reserved
  }

  /** What `openGate` commits: anything thrown rolls the period row back with the rest. */
  function GateTx(db: Db, a: Attempt, c: CallRequest, period: string, answer: GateOutcome): (db': Db)
    ensures db' == db.(budgets := db'.budgets, calls := db'.calls)
  {
    match answer
    case Reserved =>
      db.(budgets := WithPeriod(db, period),
          calls := db.calls[Slot(a.run, c.key) := Entered(db, a, c, period)])
    case Cached(_) => db.(budgets := WithPeriod(db, period))
    case StoredError(_, _) => db.(budgets := WithPeriod(db, period))
    case _ => db
  }

  /** Which answer a gate gives, by what the tables hold. */
  lemma GateAnswersByColumns(db: Db, a: Attempt, c: CallRequest, period: string)
    ensures var answer, s, fenced := GateAnswer(db, a, c, period), Slot(a.run, c.key), Fenced(db, a);
            (answer.Stale? <==> !fenced) && (answer == AppPaused <==> fenced && db.paused) &&
            (answer == NotBootstrapped <==> fenced && !db.paused && period !in db.budgets && db.defaultLimit.None?) &&
            (answer !in {Stale, AppPaused, NotBootstrapped} ==>
               (answer == KeyCollision <==> s in db.calls && db.calls[s].inputHash != c.inputHash) &&
               (answer.Cached? <==> s in db.calls && db.calls[s].inputHash == c.inputHash && db.calls[s].status.Ok?) &&
               (answer.StoredError? <==> s in db.calls && db.calls[s].inputHash == c.inputHash && db.calls[s].status.Error?) &&
               (answer.Cached? ==> answer.text == db.calls[s].status.text) &&
               (answer.StoredError? ==> answer.name == db.calls[s].status.name && answer.message == db.calls[s].status.message))
    ensures var answer, s := GateAnswer(db, a, c, period), Slot(a.run, c.key);
            answer in {BudgetExceeded, Reserved} ==>
              (period in db.budgets || db.defaultLimit.Some?) &&
              var budget := if period in db.budgets then db.budgets[period] else Budget(db.defaultLimit.value, 0);
              var reserved := Sum((set t | t in db.calls && t != s && db.calls[t].status == Started && db.calls[t].period == period &&
                                     t.run in db.runs && db.runs[t.run].current == db.calls[t].workflow && db.runs[t.run].status == Running),
                                  Estimates(db.calls));
              answer == BudgetExceeded <==> budget.spent + reserved + c.estimate > budget.limit
  {
    ReservationIsTheSum(db, period, Slot(a.run, c.key));
  }

  /** And what it leaves. */
  lemma GateWritesByColumns(db: Db, a: Attempt, c: CallRequest, period: string)
    ensures var answer, s := GateAnswer(db, a, c, period), Slot(a.run, c.key);
            var db' := GateTx(db, a, c, period, answer);
            (answer in {Stale, AppPaused, NotBootstrapped, KeyCollision, BudgetExceeded} ==> db' == db) &&
            (answer != Reserved ==> db'.calls == db.calls) &&
            (answer == Reserved ==>
               db'.calls == db.calls[s := if s in db.calls
                                          then db.calls[s].(status := Started, workflow := AttemptToken(a.run, a.n),
                                                            period := period, doubled := true)
                                          else Call(AttemptToken(a.run, a.n), period, c.inputHash, c.estimate, Started, false)]) &&
            (answer == Reserved || answer.Cached? || answer.StoredError? ==>
               period in db'.budgets && db'.budgets == db.budgets[period := db'.budgets[period]] &&
               (if period in db.budgets then db'.budgets[period] == db.budgets[period]
                else db.defaultLimit.Some? && db'.budgets[period] == Budget(db.defaultLimit.value, 0)))
  {
  }

  /** `complete`: the budget row, then the ledger row; neither looks at the row's status. */
  function CompleteTx(db: Db, a: Attempt, key: string, period: string, text: string, cost: nat): (db': Db)
    ensures db' == db.(budgets := db'.budgets, calls := db'.calls)
  {
    var s := Slot(a.run, key);
    if !Fenced(db, a) then db
    else
      db.(budgets := if period in db.budgets
                     then db.budgets[period := db.budgets[period].(spent := db.budgets[period].spent + cost)]
                     else db.budgets,
          calls := if s in db.calls then db.calls[s := db.calls[s].(status := Ok(text, cost))] else db.calls)
  }

  /** `recordProviderError`: nothing is spent. */
  function ErrorTx(db: Db, a: Attempt, key: string, name: string, message: string): (db': Db)
    ensures db' == db.(calls := db'.calls)
  {
    var s := Slot(a.run, key);
    if Fenced(db, a) && s in db.calls
    then db.(calls := db.calls[s := db.calls[s].(status := Error(name, message))])
    else db
  }

  /** `setBudget` on a period that has a row; `UnknownBudgetPeriod` otherwise. */
  function SetBudgetTx(db: Db, period: string, limit: nat): Db {
    if period in db.budgets then db.(budgets := db.budgets[period := db.budgets[period].(limit := limit)])
    else db
  }

  /** `ABANDON_LLM_CALLS_STATEMENT`: every started row whose workflow is over. */
  function AbandonTx(db: Db): Db {
    db.(calls := map s | s in db.calls ::
          if db.calls[s].status == Started && Over(db, s.run, db.calls[s].workflow)
          then db.calls[s].(status := Abandoned) else db.calls[s])
  }

  /** An attempt that asks for the call again, with the input it was made with, in a month it can ask in. */
  predicate AsksAgain(db: Db, a: Attempt, c: CallRequest, period: string) {
    var s := Slot(a.run, c.key);
    Fenced(db, a) && !db.paused && period in WithPeriod(db, period) && s in db.calls && db.calls[s].inputHash == c.inputHash
  }
}
