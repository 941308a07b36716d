// One gap inside `perform`'s first transaction. Its re-take names no status, and the sweep takes no
// lock on the run, so a sweep that commits between the transaction's read of a row and its re-take
// of it has given up on a row that is about to be sent again.
module Retakes {
  import opened Wrappers
  import opened Tables
  import opened Actions
  import opened Sends

  /** The re-take statement alone: no condition on the status it finds. */
  function Retaken(db: Db, a: Attempt, key: string): Db
    requires Slot(a.run, key) in db.actions
  {
    var s := Slot(a.run, key);
    db.(actions := db.actions[s := db.actions[s].(status := ActionStatus.Sending, workflow := TokenOf(a))])
  }

  /** A re-entry with a sweep committed before its read, between its read and its write, or both. */
  function Reentered(db: Db, a: Attempt, key: string, channel: Channel, before: bool, between: bool): Db
    requires Slot(a.run, key) in db.actions
  {
    var atRead := if before then SweepTx(db) else db;
    var atWrite := if between then SweepTx(atRead) else atRead;
    match TakeTx(atRead, a, key, channel).1
    case Send => Retaken(atWrite, a, key)
    case AskedNow => TakeTx(atWrite, a, key, channel).0  // its own statement does check the status
    case _ => atWrite
  }

  /** With no sweep in the gap the two statements are the one transaction of the run model. */
  lemma UninterruptedIsTake(db: Db, a: Attempt, key: string, channel: Channel, before: bool)
    requires Slot(a.run, key) in db.actions
    ensures var start := if before then SweepTx(db) else db;
            Reentered(db, a, key, channel, before, false) == TakeTx(start, a, key, channel).0
  {
  }

  /** The re-entry finds an older attempt's row and means to send it again. */
  predicate WillRetake(db: Db, a: Attempt, key: string, channel: Channel) {
    var s := Slot(a.run, key);
    Fenced(db, a) && Unaccounted(db, s) && channel.dedupes && WithinWindow(channel, db.actions[s], db.now)
  }

  /** A swept row is not swept again. */
  lemma SweptOnce(db: Db, s: Slot)
    requires ActionOk(db, s)
    ensures ActionOk(SweepTx(db), s) && !Unaccounted(SweepTx(db), s)
    ensures SweepTx(db).tasks * {Task(FromFlow, s), Task(FromSweep, s)} ==
            db.tasks * {Task(FromFlow, s), Task(FromSweep, s)} + (if Unaccounted(db, s) then {Task(FromSweep, s)} else {})
  {
  }

  /** A row the sweep has nothing to say about is read and written alike. */
  lemma ReadIsSafe(db: Db, a: Attempt, key: string, channel: Channel)
    requires Slot(a.run, key) in db.actions && ActionOk(db, Slot(a.run, key)) && !Unaccounted(db, Slot(a.run, key))
    ensures ActionOk(Reentered(db, a, key, channel, false, true), Slot(a.run, key))
  {
    SweptOnce(db, Slot(a.run, key));
    TakeKeepsAction(SweepTx(db), a, key, channel, Slot(a.run, key));
  }

  /** A sweep before the read is seen by it, and one after a read that will not re-take is harmless. */
  lemma SeenSweepIsSafe(db: Db, a: Attempt, key: string, channel: Channel, between: bool)
    requires Slot(a.run, key) in db.actions && ActionOk(db, Slot(a.run, key))
    ensures ActionOk(Reentered(db, a, key, channel, true, between), Slot(a.run, key))
  {
    var swept := SweepTx(db);
    SweptOnce(db, Slot(a.run, key));
    if between {
      ReadIsSafe(swept, a, key, channel);
    } else {
      UninterruptedIsTake(db, a, key, channel, true);
      TakeKeepsAction(swept, a, key, channel, Slot(a.run, key));
    }
  }

  lemma UnseenSweepRevives(db: Db, a: Attempt, key: string, channel: Channel)
    requires Slot(a.run, key) in db.actions && ActionOk(db, Slot(a.run, key))
    ensures ActionOk(Reentered(db, a, key, channel, false, true), Slot(a.run, key)) <==> !WillRetake(db, a, key, channel)
  {
    SweptOnce(db, Slot(a.run, key));
  }

  /**
   * A row is sent again behind the task that asks about it exactly when the sweep falls in the gap
   * of a re-entry that re-takes an older attempt's row.
   */
  lemma RevivedExactly(db: Db, a: Attempt, key: string, channel: Channel, before: bool, between: bool)
    requires Slot(a.run, key) in db.actions && ActionOk(db, Slot(a.run, key))
    ensures ActionOk(Reentered(db, a, key, channel, before, between), Slot(a.run, key)) <==>
            !(between && !before && WillRetake(db, a, key, channel))
  {
    if before {
      SeenSweepIsSafe(db, a, key, channel, between);
    } else if between {
      UnseenSweepRevives(db, a, key, channel);
    } else {
      UninterruptedIsTake(db, a, key, channel, false);
    }
  }
}
