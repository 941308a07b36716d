// The fence statement by statement, on one run's row: step transactions share-lock it for as long
// as they are open, bumps lock it exclusively, and a lock request that cannot be granted waits.
module Fencing {
  import opened Wrappers
  import opened Tokens
  import opened Tables

  /** An open transaction: a `ctx.tx` of an attempt, or a control-plane bump. */
  datatype Tx =
    | StepTx(attempt: pos, fenced: bool)
    | Bumping(read: Option<pos>, written: bool)

  datatype State = State(
    run: string,
    attempt: pos,                // the committed row
    current: string,
    txs: map<nat, Tx>,
    commits: seq<pos>,           // the attempt of every committed write of the run's own, in order
    concurrentBumps: nat)        // `ConcurrentBump`s thrown

  datatype Event =
    | BeginStep(id: nat, attempt: pos)
    | Fence(id: nat)
    | BeginBump(id: nat)
    | LockRun(id: nat)
    | WriteBump(id: nat)
    | Commit(id: nat)
    | Rollback(id: nat)
    | WriteStatus(attempt: pos)

  predicate Shares(s: State, id: nat) { id in s.txs && s.txs[id].StepTx? && s.txs[id].fenced }

  predicate Excludes(s: State, id: nat) { id in s.txs && s.txs[id].Bumping? && s.txs[id].read.Some? }

  ghost predicate Shared(s: State) { exists id :: Shares(s, id) }

  ghost predicate Excluded(s: State) { exists id :: Excludes(s, id) }

  predicate Current(s: State, attempt: pos) { s.current == AttemptToken(s.run, attempt) }

  function Without(s: State, id: nat): State { s.(txs := s.txs - {id}) }

  /** What a transaction's commit makes durable. */
  function Committed(s: State, id: nat): State
    requires id in s.txs
  {
    match s.txs[id]
    case StepTx(attempt, fenced) => if fenced then Without(s, id).(commits := s.commits + [attempt]) else s
    case Bumping(read, written) =>
      if read.Some? && written
      then Without(s, id).(attempt := read.value + 1, current := AttemptToken(s.run, read.value + 1))
      else s
  }

  /** One statement of one transaction; a statement whose lock is not free, or out of turn, waits. */
  ghost function Next(s: State, event: Event): State {
    match event
    case BeginStep(id, attempt) => if id in s.txs then s else s.(txs := s.txs[id := StepTx(attempt, false)])
    case Fence(id) =>
      // Evaluated when the lock is granted: no row for a moved token is `StaleAttempt`.
      if id !in s.txs || !s.txs[id].StepTx? || s.txs[id].fenced || Excluded(s) then s
      else if Current(s, s.txs[id].attempt) then s.(txs := s.txs[id := s.txs[id].(fenced := true)])
      else Without(s, id)
    case BeginBump(id) => if id in s.txs then s else s.(txs := s.txs[id := Bumping(None, false)])
    case LockRun(id) =>
      if id !in s.txs || !s.txs[id].Bumping? || s.txs[id].read.Some? || Shared(s) || Excluded(s) then s
      else s.(txs := s.txs[id := Bumping(Some(s.attempt), false)])
    case WriteBump(id) =>
      if !Excludes(s, id) || s.txs[id].written then s
      else if s.attempt == s.txs[id].read.value then s.(txs := s.txs[id := s.txs[id].(written := true)])
      else Without(s, id).(concurrentBumps := s.concurrentBumps + 1)
    case Commit(id) => if id in s.txs then Committed(s, id) else s
    case Rollback(id) => Without(s, id)
    case WriteStatus(attempt) =>
      // `claimRun` and `concludeRun`: one statement, its own transaction.
      if Shared(s) || Excluded(s) || !Current(s, attempt) then s else s.(commits := s.commits + [attempt])
  }

  ghost function Run(run: string, events: seq<Event>): State
    decreases |events|
  {
    if events == [] then State(run, 1, AttemptToken(run, 1), map[], [], 0)
    else Next(Run(run, events[..|events| - 1]), events[|events| - 1])
  }

  /** Whoever holds the row holds it as it is committed, and nobody shares what is exclusive. */
  predicate Guarded(s: State, id: nat)
    requires id in s.txs
  {
    (Shares(s, id) ==> s.txs[id].attempt == s.attempt) && (Excludes(s, id) ==> s.txs[id].read.value == s.attempt)
  }

  predicate Alone(s: State, i: nat, j: nat) { Excludes(s, i) && (Shares(s, j) || Excludes(s, j)) ==> i == j }

  ghost predicate InOrder(commits: seq<pos>, attempt: pos) {
    (forall i {:trigger commits[i]} | 0 <= i < |commits| :: commits[i] <= attempt) &&
    (forall i, j | 0 <= i < j < |commits| :: commits[i] <= commits[j])
  }

  ghost predicate Sound(s: State) {
    Current(s, s.attempt) && s.concurrentBumps == 0 &&
    (forall id {:trigger Guarded(s, id)} | id in s.txs :: Guarded(s, id)) &&
    (forall i, j {:trigger Alone(s, i, j)} | i in s.txs && j in s.txs :: Alone(s, i, j)) &&
    InOrder(s.commits, s.attempt)
  }

  lemma CommitKeepsSound(s: State, id: nat)
    requires Sound(s) && id in s.txs
    ensures Sound(Committed(s, id))
  {
    var s' := Committed(s, id);
    assert Guarded(s, id);
    forall j | j in s'.txs ensures Guarded(s', j) { assert Guarded(s, j) && Alone(s, id, j); }
    forall i, j | i in s'.txs && j in s'.txs ensures Alone(s', i, j) { assert Alone(s, i, j); }
  }

  /** A granted lock conflicts with none that is held. */
  lemma StatementKeepsLocks(s: State, event: Event)
    requires Sound(s) && !event.Commit?
    ensures var s' := Next(s, event);
            (forall j | j in s'.txs :: Guarded(s', j)) && forall i, j | i in s'.txs && j in s'.txs :: Alone(s', i, j)
  {
    var s' := Next(s, event);
    if event.Fence? && event.id in s.txs && s.txs[event.id].StepTx? {
      TokenNamesAttempt(s.run, s.txs[event.id].attempt, s.attempt);
    }
    forall j | j in s'.txs ensures Guarded(s', j) { assert j in s.txs ==> Guarded(s, j); }
    forall i, j | i in s'.txs && j in s'.txs ensures Alone(s', i, j) {
      assert i in s.txs && j in s.txs ==> Alone(s, i, j);
      assert Shares(s, j) ==> Shared(s);
      assert (Excludes(s, i) || Excludes(s, j)) ==> Excluded(s);
    }
  }

  lemma StatementKeepsSound(s: State, event: Event)
    requires Sound(s)
    ensures Sound(Next(s, event))
  {
    match event
    case Commit(id) => if id in s.txs { CommitKeepsSound(s, id); }
    case WriteBump(id) =>
      StatementKeepsLocks(s, event);
      assert id in s.txs ==> Guarded(s, id);
    case WriteStatus(attempt) =>
      StatementKeepsLocks(s, event);
      TokenNamesAttempt(s.run, attempt, s.attempt);
    case _ => StatementKeepsLocks(s, event);
  }

  lemma {:induction false} RunIsSound(run: string, events: seq<Event>)
    ensures Sound(Run(run, events))
    decreases |events|
  {
    if events != [] {
      RunIsSound(run, events[..|events| - 1]);
      StatementKeepsSound(Run(run, events[..|events| - 1]), events[|events| - 1]);
    }
  }

  /** Writes of a run commit in attempt order: once a later attempt has written, no earlier one does. */
  lemma CommitsFollowAttempts(run: string, events: seq<Event>, i: nat, j: nat)
    requires i < j < |Run(run, events).commits|
    ensures Run(run, events).commits[i] <= Run(run, events).commits[j]
  {
    RunIsSound(run, events);
  }

  /** A step transaction that commits does so while its token is still the run's. */
  lemma CommitsWhileCurrent(run: string, events: seq<Event>, id: nat)
    requires var s := Run(run, events); id in s.txs && s.txs[id].StepTx? && Next(s, Commit(id)) != s
    ensures var s := Run(run, events);
            s.current == AttemptToken(run, s.txs[id].attempt) && Next(s, Commit(id)).commits == s.commits + [s.attempt]
  {
    RunIsSound(run, events);
    RunIsRun(run, events);
    assert Guarded(Run(run, events), id);
  }

  lemma {:induction false} RunIsRun(run: string, events: seq<Event>)
    ensures Run(run, events).run == run
    decreases |events|
  {
    if events != [] { RunIsRun(run, events[..|events| - 1]); }
  }

  /** No interleaving makes a bump's compare-and-set miss. */
  lemma ConcurrentBumpNeverHappens(run: string, events: seq<Event>)
    ensures Run(run, events).concurrentBumps == 0
    ensures Run(run, events).current == AttemptToken(run, Run(run, events).attempt)
  {
    RunIsSound(run, events);
    RunIsRun(run, events);
  }

  // ----- and transactions do go through -----

  lemma Play(run: string, events: seq<Event>, event: Event) returns (longer: seq<Event>)
    ensures events <= longer && Run(run, longer) == Next(Run(run, events), event)
  {
    longer := events + [event];
    assert longer[..|events|] == events;
  }

  /** From any reached state in which nobody excludes it, a step of the current attempt commits. */
  lemma CurrentStepCommits(run: string, events: seq<Event>, id: nat) returns (longer: seq<Event>)
    requires var s := Run(run, events); id !in s.txs && forall j | j in s.txs && s.txs[j].Bumping? :: s.txs[j].read.None?
    ensures events <= longer
    ensures Run(run, longer) == Run(run, events).(commits := Run(run, events).commits + [Run(run, events).attempt])
  {
    var s := Run(run, events);
    RunIsSound(run, events);
    longer := Play(run, events, BeginStep(id, s.attempt));
    assert !Excluded(Run(run, longer));
    longer := Play(run, longer, Fence(id));
    longer := Play(run, longer, Commit(id));
    assert Run(run, longer).txs == s.txs;
  }

  /** And in which nobody has the row, the run is bumped. */
  lemma FreeRunIsBumped(run: string, events: seq<Event>, id: nat) returns (longer: seq<Event>)
    requires var s := Run(run, events);
             id !in s.txs && forall j | j in s.txs :: if s.txs[j].Bumping? then s.txs[j].read.None? else !s.txs[j].fenced
    ensures events <= longer
    ensures var s, s' := Run(run, events), Run(run, longer);
            s'.attempt == s.attempt + 1 && s'.current == AttemptToken(run, s.attempt + 1) && s'.commits == s.commits
  {
    RunIsRun(run, events);
    BumpGoesThrough(Run(run, events), id);
    longer := Play(run, events, BeginBump(id));
    longer := Play(run, longer, LockRun(id));
    longer := Play(run, longer, WriteBump(id));
    longer := Play(run, longer, Commit(id));
  }

  lemma BumpGoesThrough(s: State, id: nat)
    requires id !in s.txs && forall j | j in s.txs :: if s.txs[j].Bumping? then s.txs[j].read.None? else !s.txs[j].fenced
    ensures Next(Next(Next(Next(s, BeginBump(id)), LockRun(id)), WriteBump(id)), Commit(id)) ==
            s.(attempt := s.attempt + 1, current := AttemptToken(s.run, s.attempt + 1))
  {
    var begun := Next(s, BeginBump(id));
    assert begun == s.(txs := s.txs[id := Bumping(None, false)]) && !Shared(begun) && !Excluded(begun);
    var locked := Next(begun, LockRun(id));
    assert locked == s.(txs := s.txs[id := Bumping(Some(s.attempt), false)]);
    var written := Next(locked, WriteBump(id));
    assert written == s.(txs := s.txs[id := Bumping(Some(s.attempt), true)]);
    assert written.txs - {id} == s.txs;
  }
}
