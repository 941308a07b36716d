// The approval gate and the one way an approval is decided (packages/workflows/src/approvals.ts).
module Approvals {
  import opened Wrappers
  import opened IdOrder
  import opened Tables
  import opened Runs

  /** An edit as its type's schema answered for it. */
  datatype Edit = Parsed(draft: string) | NoSchema | Mismatch

  datatype DecideRequest = DecideRequest(ids: set<nat>, verdict: Verdict, via: Via, key: string,
                                         user: Option<string>, admin: bool, edits: map<nat, Edit>,
                                         uuid: string)

  datatype DecidedApproval = DecidedApproval(id: nat, slot: Slot, verdict: Verdict, resume: string)

  datatype Reattempt = Reattempt(run: string, attempt: nat, workflow: string)

  datatype DecideOutcome =
    | RunMoved
    | BatchRefused
    | BumpRefused
    | Replayed(rows: set<DecidedApproval>, batch: Option<string>, reattempted: set<Reattempt>)
    | Fresh(rows: set<DecidedApproval>, batch: Option<string>, reattempted: set<Reattempt>)

  /** `createOrRead`: insert unless the gate has its row, and read it back. `None` is stale. */
  function AskTx(db: Db, a: Attempt, key: string, draft: string, assignee: Option<string>, id: nat)
    : (r: (Db, Option<nat>))
    ensures r.0 == db.(approvals := r.0.approvals, gates := r.0.gates)
  {
    var s := Slot(a.run, key);
    if !Fenced(db, a) then (db, None)
    else if s in db.gates then (db, Some(db.gates[s]))
    else if id in db.approvals then (db, None)
    else (db.(approvals := db.approvals[id := Approval(s, assignee, draft, None, None)],
              gates := db.gates[s := id]), Some(id))
  }

  /** The unlocked read that chooses which runs to lock. */
  function Scout(db: Db, ids: set<nat>): set<string> {
    set i | i in ids && i in db.approvals :: db.approvals[i].slot.run
  }

  function Locked(db: Db, ids: set<nat>): set<nat> {
    set i | i in ids && i in db.approvals
  }

  predicate CarriesKey(row: Approval, key: string) {
    row.decision.Some? && row.decision.value.key == key
  }

  /** The assignee rule binds human deciders who are not admins. */
  predicate MayDecide(row: Approval, q: DecideRequest) {
    q.via == Archive || q.via == Sweep || row.assignee == None || row.assignee == q.user || q.admin
  }

  predicate EditFits(q: DecideRequest, id: nat) {
    id !in q.edits || q.edits[id].Parsed?
  }

  /** Nothing `assertDecidable` could refuse the row for. */
  predicate Acceptable(row: Approval, id: nat, q: DecideRequest) {
    row.Pending() && MayDecide(row, q) && EditFits(q, id)
  }

  predicate Decidable(db: Db, q: DecideRequest) {
    forall i | i in q.ids :: i in db.approvals && Acceptable(db.approvals[i], i, q)
  }

  function BatchOf(q: DecideRequest): Option<string> {
    if |q.ids| > 1 then Some(q.uuid) else None
  }

  function DecidedRow(row: Approval, id: nat, q: DecideRequest, resume: string): Approval {
    row.(decision := Some(Decision(q.verdict, q.user, q.via, q.key, BatchOf(q), resume)),
         edited := if id in q.edits && q.edits[id].Parsed? then Some(q.edits[id].draft) else row.edited)
  }

  function AnswerOf(db: Db, i: nat): DecidedApproval
    requires i in db.approvals && db.approvals[i].decision.Some?
  {
    var row := db.approvals[i];
    DecidedApproval(i, row.slot, row.decision.value.verdict, row.decision.value.resume)
  }

  function AnswersOf(db: Db, ids: set<nat>): set<DecidedApproval> {
    set i | i in ids && i in db.approvals && db.approvals[i].decision.Some? :: AnswerOf(db, i)
  }

  /** The batch id of the first row, as a replay reads it back. */
  ghost function BatchRead(db: Db, locked: set<nat>): Option<string>
    requires locked <= db.approvals.Keys
  {
    if locked == {} || db.approvals[Least(locked)].decision.None? then None
    else db.approvals[Least(locked)].decision.value.batch
  }

  /** The attempts these runs are on: after a batch's own bumps for the batch, as they stand for a replay. */
  function Reattempts(db: Db, runs: set<string>): set<Reattempt> {
    set r | r in runs && r in db.runs :: Reattempt(r, db.runs[r].attempt, db.runs[r].current)
  }

  function WriteDecisions(db: Db, q: DecideRequest): map<nat, Approval> {
    map i | i in db.approvals ::
      if i in q.ids && db.approvals[i].slot.run in db.runs
      then DecidedRow(db.approvals[i], i, q, NextToken(db, db.approvals[i].slot.run))
      else db.approvals[i]
  }

  /** The decisions, the bumps and the enqueues of one batch. */
  function DecidedDb(db: Db, q: DecideRequest, runs: set<string>): Db {
    BumpTx(db, runs).(approvals := WriteDecisions(db, q))
  }

  /** What `decideOnce` answers over the runs scouted for it. */
  ghost function DecideAnswer(db: Db, q: DecideRequest, runs: set<string>): DecideOutcome {
    var locked := Locked(db, q.ids);
    var replay := set i | i in locked && CarriesKey(db.approvals[i], q.key);
    if exists i :: i in locked && db.approvals[i].slot.run !in runs then RunMoved
    else if replay != {} then
      if replay == locked then Replayed(AnswersOf(db, locked), BatchRead(db, locked), Reattempts(db, runs)) else BatchRefused
    else if !Decidable(db, q) then BatchRefused
    else if !CanBump(db, runs) then BumpRefused
    else Fresh(AnswersOf(DecidedDb(db, q, runs), q.ids), BatchOf(q), Reattempts(DecidedDb(db, q, runs), runs))
  }

  /** What it commits: everything, or nothing. */
  ghost function DecideTx(db: Db, q: DecideRequest, runs: set<string>): Db {
    if DecideAnswer(db, q, runs).Fresh? then DecidedDb(db, q, runs) else db
  }
}
