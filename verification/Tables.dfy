// The rows the run model lives on, one map per table, and the fence every step transaction opens
// with. Money is whole micro-dollars; time is whole milliseconds of the database's clock.
module Tables {
  import opened Wrappers
  import opened Tokens

  /** `hf_run_attempt_positive`: attempts count from 1. */
  type pos = n: nat | 1 <= n witness 1

  /** One attempt of one run: what a workflow row is enqueued for. */
  datatype Attempt = Attempt(run: string, n: pos)

  /** What `(run_id, key)` is unique on in the call ledger, the action log and the approvals. */
  datatype Slot = Slot(run: string, key: string)

  datatype RunStatus = Running | Waiting | Paused | Done | Failed

  datatype Run = Run(attempt: pos, current: string, status: RunStatus)

  datatype Budget = Budget(limit: nat, spent: nat)

  // `output` and `cost_usd` are written by the statement that settles the row, so they are part
  // of the settled statuses.
  datatype CallStatus =
    | Started
    | Ok(text: string, cost: nat)
    | Error(name: string, message: string)
    | Abandoned

  datatype Call = Call(workflow: string, period: string, inputHash: string, estimate: nat,
                       status: CallStatus, doubled: bool)
  {
    predicate Settled() { status.Ok? || status.Error? }
  }

  datatype Verdict = Approved | Rejected | Expired | Cancelled

  datatype Via = Web | Telegram | Admin | Archive | Sweep

  /** The columns a decision writes, in one update. */
  datatype Decision = Decision(verdict: Verdict, decider: Option<string>, via: Via, key: string,
                               batch: Option<string>, resume: string)

  datatype Approval = Approval(slot: Slot, assignee: Option<string>, draft: string,
                               edited: Option<string>, decision: Option<Decision>)
  {
    predicate Pending() { decision.None? }
  }

  /** Left `None`, a window never closes. */
  datatype Channel = Channel(name: string, dedupes: bool, window: Option<nat>)

  datatype ActionStatus = Sending | Sent(result: string) | SendFailed | Uncertain

  datatype Action = Action(workflow: string, channel: Channel, startedAt: nat, status: ActionStatus)

  datatype Origin = FromFlow | FromSweep

  /** A task asking a human about one action row; unique on `(origin, origin_ref)`. */
  datatype Task = Task(origin: Origin, action: Slot)

  datatype Db = Db(
    runs: map<string, Run>,
    workflows: set<string>,            // dbos.workflow_status, by workflow id
    budgets: map<string, Budget>,
    calls: map<Slot, Call>,
    approvals: map<nat, Approval>,
    gates: map<Slot, nat>,             // the unique index of hf_approval on (run_id, key)
    actions: map<Slot, Action>,
    tasks: set<Task>,
    paused: bool,
    defaultLimit: Option<nat>,         // hf_app_state.budget_usd; None before bootstrap
    now: nat)

  function TokenOf(a: Attempt): string { AttemptToken(a.run, a.n) }

  /** `FENCE_STATEMENT` finds a row: the run is still on this attempt's workflow. */
  predicate Fenced(db: Db, a: Attempt) {
    a.run in db.runs && db.runs[a.run].current == TokenOf(a)
  }

  /** A workflow that can no longer write: its run left it, or its run is not going. */
  predicate Over(db: Db, run: string, workflow: string) {
    run in db.runs &&
    (db.runs[run].status in {Done, Failed, Waiting, Paused} || workflow != db.runs[run].current)
  }
}
