// The outbound send ledger (packages/workflows/src/actions.ts) and the sweep that gives up on rows
// nobody can finish.
module Actions {
  import opened Wrappers
  import opened Tables

  datatype TakeOutcome =
    | Stale
    | AlreadySent(result: string)
    | AskedBefore
    | AskedNow
    | Send

  predicate WithinWindow(channel: Channel, row: Action, now: nat) {
    channel.window.None? || now - row.startedAt <= channel.window.value
  }

  /** The first transaction of `perform`: take the row for sending, or settle that it is not sent. */
  function TakeTx(db: Db, a: Attempt, key: string, channel: Channel): (Db, TakeOutcome) {
    var s := Slot(a.run, key);
    if !Fenced(db, a) then (db, Stale)
    else if s !in db.actions then
      (db.(actions := db.actions[s := Action(TokenOf(a), channel, db.now, Sending)]), Send)
    else
      var row := db.actions[s];
      if row.status.Sent? then (db, AlreadySent(row.status.result))
      else if row.status == Uncertain then (db, AskedBefore)
      else if channel.dedupes && WithinWindow(channel, row, db.now) then
        (db.(actions := db.actions[s := row.(status := Sending, workflow := TokenOf(a))]), Send)
      else
        (db.(actions := db.actions[s := row.(status := Uncertain)],
             tasks := db.tasks + {Task(FromFlow, s)}), AskedNow)
  }

  /** The transaction after the send: `ok` with its result, or `failed`. */
  function SettleTx(db: Db, a: Attempt, key: string, result: Option<string>): Db {
    var s := Slot(a.run, key);
    if Fenced(db, a) && s in db.actions then
      db.(actions := db.actions[s := db.actions[s].(status := if result.Some? then Sent(result.value) else SendFailed)])
    else db
  }

  /** `UNCERTAIN_ACTIONS_STATEMENT` moves this row. */
  predicate Unaccounted(db: Db, s: Slot) {
    s in db.actions && db.actions[s].status in {Sending, SendFailed} && Over(db, s.run, db.actions[s].workflow)
  }

  function AllUnaccounted(db: Db): set<Slot> {
    set s | s in db.actions && Unaccounted(db, s)
  }

  function SweepTasks(moved: set<Slot>): set<Task> {
    set s | s in moved :: Task(FromSweep, s)
  }

  /** The sweep over the action log, with a task for every row it moves. */
  function SweepTx(db: Db): Db {
    db.(actions := map s | s in db.actions ::
          if Unaccounted(db, s) then db.actions[s].(status := Uncertain) else db.actions[s],
        tasks := db.tasks + SweepTasks(AllUnaccounted(db)))
  }
}
