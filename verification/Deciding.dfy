// Decisions statement by statement, on the approval rows and the runs they belong to: any number of
// batches and bumps scout, lock, read under their locks, write, bump and commit, in any interleaving.
// A lock that is held is waited for.
module Deciding {
  import opened Wrappers
  import opened Tables

  /** What a decision leaves on its row: the key it carried, and the attempt that resumes the run. */
  datatype Mark = Mark(key: string, resume: pos)

  datatype Row = Row(run: string, decision: Option<Mark>)

  /**
   * One open transaction. A batch has `ids`, of which its unlocked read found the rows `seen`, of the
   * runs `scouted`; a bump of the control plane's own has no ids. `runs` and `rows` are what it has
   * locked, as it read them, `written` and `bumped` what it has updated.
   */
  datatype Tx = Tx(key: string, ids: set<nat>, seen: set<nat>, scouted: set<string>,
                   runs: map<string, pos>, rows: map<nat, Row>, written: set<nat>, bumped: set<string>)

  /** A committed decision of one row. */
  datatype Decided = Decided(id: nat, key: string)

  datatype State = State(
    runs: map<string, pos>,            // committed: the attempt each run is on
    rows: map<nat, Row>,               // committed
    txs: map<nat, Tx>,
    decisions: seq<Decided>,
    writesLost: nat,                   // `ApprovalWriteLost`s thrown
    concurrentBumps: nat)              // `ConcurrentBump`s thrown

  datatype Event =
    | Start(run: string)
    | Insert(id: nat, run: string)     // `createOrRead` committed a new approval
    | Begin(t: nat, key: string, ids: set<nat>)
    | BeginBump(t: nat, run: string)
    | LockRun(t: nat, run: string)
    | LockRow(t: nat, id: nat)
    | Write(t: nat, id: nat)
    | BumpRun(t: nat, run: string)
    | Commit(t: nat)
    | Rollback(t: nat)

  function Fresh(): State { State(map[], map[], map[], [], 0, 0) }

  predicate LocksRow(s: State, t: nat, id: nat) { t in s.txs && id in s.txs[t].rows }

  predicate LocksRun(s: State, t: nat, run: string) { t in s.txs && run in s.txs[t].runs }

  ghost predicate RowFree(s: State, id: nat) { forall t {:trigger LocksRow(s, t, id)} :: !LocksRow(s, t, id) }

  /** Nobody else has the run. */
  ghost predicate RunFree(s: State, t: nat, run: string) {
    forall u {:trigger LocksRun(s, u, run)} :: LocksRun(s, u, run) ==> u == t
  }

  /** Past its checks: its runs are locked, its rows are there, none has moved, and all were read pending. */
  predicate Checked(tx: Tx) {
    tx.runs.Keys == tx.scouted && tx.rows.Keys == tx.ids &&
    forall i | i in tx.ids :: tx.rows[i].run in tx.scouted && tx.rows[i].decision.None?
  }

  /** Nothing was written, or everything. */
  predicate Complete(tx: Tx) {
    (tx.written == {} && tx.bumped == {}) || (tx.written == tx.ids && tx.bumped == tx.scouted)
  }

  function Without(s: State, t: nat): State { s.(txs := s.txs - {t}) }

  function Doing(s: State, t: nat, tx: Tx): State { s.(txs := s.txs[t := tx]) }

  /** The runs the unlocked read finds the rows under. */
  function Scout(s: State, ids: set<nat>): set<string> { set i | i in ids && i in s.rows :: s.rows[i].run }

  /** The decisions of a batch, row by row. */
  ghost function Log(ids: set<nat>, key: string): (log: seq<Decided>)
    ensures forall d :: d in log <==> d.id in ids && d.key == key
    ensures forall i, j | 0 <= i < j < |log| :: log[i].id != log[j].id
    decreases ids
  {
    if ids == {} then []
    else
      var i :| i in ids;
      Log(ids - {i}, key) + [Decided(i, key)]
  }

  /** Each bumped run on the attempt after the one that was read. */
  function BumpedRuns(s: State, tx: Tx): map<string, pos> {
    map r | r in s.runs :: if r in tx.bumped && r in tx.runs then tx.runs[r] + 1 else s.runs[r]
  }

  /** Each written row decided, and resumed by the attempt its run was bumped to. */
  function DecidedRows(s: State, tx: Tx): map<nat, Row> {
    map i | i in s.rows ::
      if i in tx.written && s.rows[i].run in tx.runs
      then s.rows[i].(decision := Some(Mark(tx.key, tx.runs[s.rows[i].run] + 1))) else s.rows[i]
  }

  ghost function Committed(s: State, t: nat): State
    requires t in s.txs
  {
    var tx := s.txs[t];
    Without(s, t).(runs := BumpedRuns(s, tx), rows := DecidedRows(s, tx), decisions := s.decisions + Log(tx.written, tx.key))
  }

  ghost function Next(s: State, event: Event): State {
    match event
    case Start(run) => if run in s.runs then s else s.(runs := s.runs[run := 1])
    case Insert(id, run) =>
      // The step's transaction shares the run's row until it commits.
      if id in s.rows || run !in s.runs || exists t :: LocksRun(s, t, run) then s
      else s.(rows := s.rows[id := Row(run, None)])
    case Begin(t, key, ids) =>
      if t in s.txs then s
      else Doing(s, t, Tx(key, ids, ids * s.rows.Keys, Scout(s, ids), map[], map[], {}, {}))
    case BeginBump(t, run) =>
      if t in s.txs || run !in s.runs then s else Doing(s, t, Tx("", {}, {}, {run}, map[], map[], {}, {}))
    case LockRun(t, run) =>
      // `bumpAttempt` locks and reads again what `decideOnce` has locked.
      if t !in s.txs || run !in s.txs[t].scouted - s.txs[t].bumped || run !in s.runs || !RunFree(s, t, run) then s
      else Doing(s, t, s.txs[t].(runs := s.txs[t].runs[run := s.runs[run]]))
    case LockRow(t, id) =>
      if t !in s.txs || s.txs[t].runs.Keys != s.txs[t].scouted || id !in s.txs[t].ids || id !in s.rows || !RowFree(s, id)
      then s
      else Doing(s, t, s.txs[t].(rows := s.txs[t].rows[id := s.rows[id]]))
    case Write(t, id) =>
      if t !in s.txs || !Checked(s.txs[t]) || id !in s.txs[t].ids - s.txs[t].written then s
      else if id in s.rows && s.rows[id].decision.None? then
        Doing(s, t, s.txs[t].(written := s.txs[t].written + {id}))
      else Without(s, t).(writesLost := s.writesLost + 1)
    case BumpRun(t, run) =>
      if t !in s.txs || !Checked(s.txs[t]) || s.txs[t].written != s.txs[t].ids || run !in s.txs[t].scouted - s.txs[t].bumped
      then s
      else if run in s.runs && s.runs[run] == s.txs[t].runs[run] then
        Doing(s, t, s.txs[t].(bumped := s.txs[t].bumped + {run}))
      else Without(s, t).(concurrentBumps := s.concurrentBumps + 1)
    case Commit(t) => if t in s.txs && Complete(s.txs[t]) then Committed(s, t) else s
    case Rollback(t) => Without(s, t)
  }

  ghost function Run(events: seq<Event>): State
    decreases |events|
  {
    if events == [] then Fresh() else Next(Run(events[..|events| - 1]), events[|events| - 1])
  }

  // ----- what every state keeps -----

  /** What a transaction read under its locks is what is committed, and it writes only what it checked. */
  predicate Held(s: State, t: nat)
    requires t in s.txs
  {
    var tx := s.txs[t];
    (forall r | r in tx.runs :: r in s.runs && s.runs[r] == tx.runs[r]) &&
    (forall i | i in tx.rows :: i in s.rows && s.rows[i] == tx.rows[i]) &&
    (tx.written != {} || tx.bumped != {} ==> Checked(tx)) && tx.written <= tx.ids && tx.bumped <= tx.scouted
  }

  /** The rows that were scouted are still of the runs they were scouted under. */
  predicate Scouted(s: State, t: nat)
    requires t in s.txs
  {
    forall i | i in s.txs[t].seen :: i in s.rows && s.rows[i].run in s.txs[t].scouted
  }

  /** No row and no run is locked twice. */
  predicate RowAlone(s: State, t: nat, u: nat, id: nat) { LocksRow(s, t, id) && LocksRow(s, u, id) ==> t == u }

  predicate RunAlone(s: State, t: nat, u: nat, run: string) { LocksRun(s, t, run) && LocksRun(s, u, run) ==> t == u }

  /** A row is decided under a key exactly when the decision is on record, and resumed by an attempt there has been. */
  ghost predicate Recorded(s: State, id: nat)
    requires id in s.rows
  {
    s.rows[id].run in s.runs &&
    match s.rows[id].decision
    case None => forall key :: Decided(id, key) !in s.decisions
    case Some(Mark(key, resume)) => Decided(id, key) in s.decisions && resume <= s.runs[s.rows[id].run]
  }

  ghost predicate OncePerRow(decisions: seq<Decided>) {
    forall i, j | 0 <= i < j < |decisions| :: decisions[i].id != decisions[j].id
  }

  ghost predicate LocksOk(s: State) {
    (forall t {:trigger Held(s, t)} | t in s.txs :: Held(s, t)) &&
    (forall t, u, id {:trigger RowAlone(s, t, u, id)} :: RowAlone(s, t, u, id)) &&
    (forall t, u, run {:trigger RunAlone(s, t, u, run)} :: RunAlone(s, t, u, run))
  }

  ghost predicate RowsOk(s: State) {
    OncePerRow(s.decisions) && (forall d | d in s.decisions :: d.id in s.rows) &&
    (forall id {:trigger Recorded(s, id)} | id in s.rows :: Recorded(s, id)) &&
    (forall t {:trigger Scouted(s, t)} | t in s.txs :: Scouted(s, t))
  }

  ghost predicate Sound(s: State) { s.writesLost == 0 && s.concurrentBumps == 0 && LocksOk(s) && RowsOk(s) }

  /** A commit touches only rows and runs nobody else has locked. */
  lemma CommitKeepsLocks(s: State, t: nat)
    requires LocksOk(s) && t in s.txs
    ensures LocksOk(Committed(s, t))
  {
    var s' := Committed(s, t);
    assert Held(s, t);
    forall u | u in s'.txs ensures Held(s', u) { OthersStayHeld(s, t, u); }
    forall u, v, id ensures RowAlone(s', u, v, id) { assert RowAlone(s, u, v, id); }
    forall u, v, run ensures RunAlone(s', u, v, run) { assert RunAlone(s, u, v, run); }
  }

  lemma OthersStayHeld(s: State, t: nat, u: nat)
    requires LocksOk(s) && t in s.txs && u in s.txs && u != t
    ensures Held(Committed(s, t), u)
  {
    var s', tx := Committed(s, t), s.txs[t];
    assert Held(s, t) && Held(s, u);
    forall r | r in s.txs[u].runs ensures s'.runs[r] == s.txs[u].runs[r] {
      assert RunAlone(s, t, u, r) && LocksRun(s, u, r) && (r in tx.runs ==> LocksRun(s, t, r));
    }
    forall i | i in s.txs[u].rows ensures s'.rows[i] == s.txs[u].rows[i] {
      assert RowAlone(s, t, u, i) && LocksRow(s, u, i) && (i in tx.rows ==> LocksRow(s, t, i));
    }
  }

  lemma CommitKeepsRows(s: State, t: nat)
    requires Sound(s) && t in s.txs && Complete(s.txs[t])
    ensures RowsOk(Committed(s, t))
  {
    var s', tx := Committed(s, t), s.txs[t];
    assert Held(s, t);
    forall id | id in s'.rows ensures Recorded(s', id) { assert Recorded(s, id); }
    forall u | u in s'.txs ensures Scouted(s', u) { assert Scouted(s, u); }
    forall i, j | 0 <= i < j < |s'.decisions| ensures s'.decisions[i].id != s'.decisions[j].id {
      if i < |s.decisions| <= j {
        assert s.decisions[i] in s.decisions && s'.decisions[j] in Log(tx.written, tx.key);
        assert Recorded(s, s'.decisions[j].id);
      }
    }
  }

  lemma StatementKeepsLocks(s: State, event: Event)
    requires LocksOk(s) && !event.Commit?
    ensures LocksOk(Next(s, event))
  {
    var s' := Next(s, event);
    forall u | u in s'.txs ensures Held(s', u) { StatementKeepsHeld(s, event, u); }
    forall u, v, id ensures RowAlone(s', u, v, id) { StatementKeepsRowsAlone(s, event, u, v, id); }
    forall u, v, run ensures RunAlone(s', u, v, run) { StatementKeepsRunsAlone(s, event, u, v, run); }
  }

  lemma StatementKeepsHeld(s: State, event: Event, u: nat)
    requires LocksOk(s) && !event.Commit? && u in Next(s, event).txs
    ensures Held(Next(s, event), u)
  {
    if event.LockRow? || event.LockRun? {
      assert Held(s, u);
      LockingKeepsHeld(s, event, u);
    } else if event.Write? {
      assert Held(s, u);
      WritingKeepsHeld(s, event.t, event.id, u);
    } else if event.BumpRun? {
      assert Held(s, u);
      BumpingKeepsHeld(s, event.t, event.run, u);
    } else {
      assert u in s.txs ==> Held(s, u);
    }
  }

  lemma WritingKeepsHeld(s: State, t: nat, id: nat, u: nat)
    requires u in s.txs && Held(s, u) && u in Next(s, Write(t, id)).txs
    ensures Held(Next(s, Write(t, id)), u)
  {
  }

  lemma BumpingKeepsHeld(s: State, t: nat, run: string, u: nat)
    requires u in s.txs && Held(s, u) && u in Next(s, BumpRun(t, run)).txs
    ensures Held(Next(s, BumpRun(t, run)), u)
  {
  }

  lemma LockingKeepsHeld(s: State, event: Event, u: nat)
    requires u in s.txs && Held(s, u) && (event.LockRow? || event.LockRun?)
    ensures Held(Next(s, event), u)
  {
  }

  lemma StatementKeepsRowsAlone(s: State, event: Event, u: nat, v: nat, id: nat)
    requires LocksOk(s) && !event.Commit?
    ensures RowAlone(Next(s, event), u, v, id)
  {
    assert RowAlone(s, u, v, id);
    assert LocksRow(s, u, id) || LocksRow(s, v, id) ==> !RowFree(s, id);
  }

  lemma StatementKeepsRunsAlone(s: State, event: Event, u: nat, v: nat, run: string)
    requires LocksOk(s) && !event.Commit?
    ensures RunAlone(Next(s, event), u, v, run)
  {
    assert RunAlone(s, u, v, run);
    if event.LockRun? && event.run == run && RunFree(s, event.t, run) {
      assert LocksRun(s, u, run) ==> u == event.t;
      assert LocksRun(s, v, run) ==> v == event.t;
    }
  }

  lemma StatementKeepsRows(s: State, event: Event)
    requires RowsOk(s) && !event.Commit?
    ensures RowsOk(Next(s, event))
  {
    var s' := Next(s, event);
    forall id | id in s'.rows ensures Recorded(s', id) { assert id in s.rows ==> Recorded(s, id); }
    forall u | u in s'.txs ensures Scouted(s', u) { assert u in s.txs ==> Scouted(s, u); }
  }

  lemma StatementKeepsSound(s: State, event: Event)
    requires Sound(s)
    ensures Sound(Next(s, event))
  {
    if event.Commit? {
      if event.t in s.txs && Complete(s.txs[event.t]) {
        CommitKeepsLocks(s, event.t);
        CommitKeepsRows(s, event.t);
      }
    } else {
      StatementKeepsLocks(s, event);
      StatementKeepsRows(s, event);
      NothingMisses(s, event);
    }
  }

  /** The conditional updates match: what a transaction holds locked has not moved since it read it. */
  lemma NothingMisses(s: State, event: Event)
    requires LocksOk(s)
    ensures Next(s, event).writesLost == s.writesLost && Next(s, event).concurrentBumps == s.concurrentBumps
  {
    if event.Write? || event.BumpRun? { assert event.t in s.txs ==> Held(s, event.t); }
  }

  lemma {:induction false} RunIsSound(events: seq<Event>)
    ensures Sound(Run(events))
    decreases |events|
  {
    if events != [] {
      RunIsSound(events[..|events| - 1]);
      StatementKeepsSound(Run(events[..|events| - 1]), events[|events| - 1]);
    }
  }

  // ----- the theorems -----

  /** No interleaving makes the conditional update of a locked row miss, nor a bump's of a locked run. */
  lemma UpdatesNeverMiss(events: seq<Event>)
    ensures Run(events).writesLost == 0 && Run(events).concurrentBumps == 0
  {
    RunIsSound(events);
  }

  /** No approval is ever decided twice, whichever batches meet on it. */
  lemma RowsAreDecidedOnce(events: seq<Event>, i: nat, j: nat)
    requires i < j < |Run(events).decisions|
    ensures Run(events).decisions[i].id != Run(events).decisions[j].id
  {
    RunIsSound(events);
  }

  /** Every row of a batch goes from pending to decided, resumed by the attempt its run is on after; no other row moves. */
  ghost predicate DecidesAll(s: State, s': State, tx: Tx) {
    (forall i | i in tx.ids ::
       i in s.rows && s.rows[i].decision.None? && s.rows[i].run in tx.scouted && s.rows[i].run in s'.runs &&
       i in s'.rows && s'.rows[i] == Row(s.rows[i].run, Some(Mark(tx.key, s'.runs[s.rows[i].run])))) &&
    s'.rows.Keys == s.rows.Keys && forall i | i in s.rows && i !in tx.ids :: s'.rows[i] == s.rows[i]
  }

  lemma BatchDecidesAll(s: State, t: nat)
    requires Sound(s) && t in s.txs && s.txs[t].written != {} && Complete(s.txs[t])
    ensures DecidesAll(s, Next(s, Commit(t)), s.txs[t])
  {
    assert Held(s, t);
    assert forall i | i in s.txs[t].ids :: i in s.rows && s.rows[i] == s.txs[t].rows[i];
  }

  /** A batch that writes commits as if it ran alone at that instant, on the tables it commits to. */
  lemma BatchesCommitAtOnce(events: seq<Event>, t: nat)
    requires var s := Run(events); t in s.txs && s.txs[t].written != {} && Complete(s.txs[t])
    ensures var s := Run(events); DecidesAll(s, Next(s, Commit(t)), s.txs[t])
  {
    RunIsSound(events);
    BatchDecidesAll(Run(events), t);
  }

  /** Bumps commit at once too, a batch's and the control plane's own: each run by one, and no other run. */
  lemma BumpsCommitAtOnce(events: seq<Event>, t: nat)
    requires var s := Run(events); t in s.txs && s.txs[t].bumped != {} && Complete(s.txs[t])
    ensures var s := Run(events); var tx, s' := s.txs[t], Next(s, Commit(t));
            tx.scouted <= s.runs.Keys && s'.runs.Keys == s.runs.Keys &&
            forall r | r in s.runs :: s'.runs[r] == s.runs[r] + if r in tx.scouted then 1 else 0
  {
    RunIsSound(events);
    assert Held(Run(events), t);
  }

  /** What a replay reads back is what is committed: its rows under its key, its runs no further back than they resumed. */
  lemma ReplaysReadWhatStands(events: seq<Event>, t: nat, id: nat)
    requires var s := Run(events);
             LocksRow(s, t, id) && s.txs[t].rows[id].decision.Some? && s.txs[t].rows[id].run in s.txs[t].runs
    ensures var s := Run(events); var tx := s.txs[t]; var run := tx.rows[id].run;
            id in s.rows && s.rows[id] == tx.rows[id] && run in s.runs && s.runs[run] == tx.runs[run] &&
            tx.rows[id].decision.value.resume <= tx.runs[run] &&
            Decided(id, tx.rows[id].decision.value.key) in s.decisions
  {
    RunIsSound(events);
    assert Held(Run(events), t) && Recorded(Run(events), id);
  }

  /** A row is found under a run that was not locked only if it was inserted after the unlocked read. */
  lemma RunMovesByInsertOnly(events: seq<Event>, t: nat, id: nat)
    requires var s := Run(events); LocksRow(s, t, id) && s.txs[t].rows[id].run !in s.txs[t].scouted
    ensures id !in Run(events).txs[t].seen
  {
    RunIsSound(events);
    assert Held(Run(events), t) && Scouted(Run(events), t);
  }

  // ----- and batches do go through -----

  lemma Play(events: seq<Event>, event: Event) returns (longer: seq<Event>)
    ensures events <= longer && Run(longer) == Next(Run(events), event)
  {
    longer := events + [event];
    assert longer[..|events|] == events;
  }

  /** The open transaction of a one-row batch with its checks behind it. */
  function Ready(s: State, t: nat, key: string, id: nat): State
    requires id in s.rows && s.rows[id].run in s.runs
  {
    var run := s.rows[id].run;
    Doing(s, t, Tx(key, {id}, {id}, {run}, map[run := s.runs[run]], map[id := s.rows[id]], {}, {}))
  }

  /** A pending row that nobody has locked, in a run that nobody has. */
  ghost predicate CanDecide(s: State, t: nat, id: nat) {
    t !in s.txs && id in s.rows && s.rows[id].decision.None? && s.rows[id].run in s.runs && RowFree(s, id) &&
    forall u {:trigger LocksRun(s, u, s.rows[id].run)} :: !LocksRun(s, u, s.rows[id].run)
  }

  lemma LockingIsReady(s: State, t: nat, key: string, id: nat)
    requires CanDecide(s, t, id)
    ensures Next(Next(Next(s, Begin(t, key, {id})), LockRun(t, s.rows[id].run)), LockRow(t, id)) == Ready(s, t, key, id)
  {
    var run := s.rows[id].run;
    var begun := Next(s, Begin(t, key, {id}));
    assert {id} * s.rows.Keys == {id} && Scout(s, {id}) == {run};
    assert begun == Doing(s, t, Tx(key, {id}, {id}, {run}, map[], map[], {}, {}));
    forall u ensures !LocksRun(begun, u, run) { assert !LocksRun(s, u, run); }
    var locked := Next(begun, LockRun(t, run));
    assert locked == Doing(s, t, Tx(key, {id}, {id}, {run}, map[run := s.runs[run]], map[], {}, {}));
    forall u ensures !LocksRow(locked, u, id) { assert !LocksRow(s, u, id); }
  }

  lemma ReadyCommits(s: State, t: nat, key: string, id: nat)
    requires CanDecide(s, t, id)
    ensures var run := s.rows[id].run;
            var s' := Next(Next(Next(Ready(s, t, key, id), Write(t, id)), BumpRun(t, run)), Commit(t));
            run in s'.runs && s'.runs[run] == s.runs[run] + 1 && id in s'.rows &&
            s'.rows[id] == Row(run, Some(Mark(key, s.runs[run] + 1))) && Decided(id, key) in s'.decisions
  {
    var run, ready := s.rows[id].run, Ready(s, t, key, id);
    var written := Next(ready, Write(t, id));
    assert written.txs[t] == ready.txs[t].(written := {id});
    var bumped := Next(written, BumpRun(t, run));
    assert bumped.txs[t] == ready.txs[t].(written := {id}, bumped := {run});
  }

  /** From any reached state, a row that nobody is at can be decided, and its run moves on for it. */
  lemma PendingCanBeDecided(events: seq<Event>, t: nat, key: string, id: nat) returns (longer: seq<Event>)
    requires var s := Run(events); t !in s.txs && id in s.rows && s.rows[id].decision.None?
    requires var s := Run(events);
             forall u | u in s.txs :: id !in s.txs[u].rows && s.rows[id].run !in s.txs[u].runs
    ensures events <= longer
    ensures var s, s' := Run(events), Run(longer);
            var run := s.rows[id].run;
            run in s.runs && run in s'.runs && s'.runs[run] == s.runs[run] + 1 && id in s'.rows &&
            s'.rows[id] == Row(run, Some(Mark(key, s.runs[run] + 1))) && Decided(id, key) in s'.decisions
  {
    var s := Run(events);
    RunIsSound(events);
    assert Recorded(s, id) && CanDecide(s, t, id);
    LockingIsReady(s, t, key, id);
    ReadyCommits(s, t, key, id);
    longer := Play(events, Begin(t, key, {id}));
    longer := Play(longer, LockRun(t, s.rows[id].run));
    longer := Play(longer, LockRow(t, id));
    longer := Play(longer, Write(t, id));
    longer := Play(longer, BumpRun(t, s.rows[id].run));
    longer := Play(longer, Commit(t));
  }
}
