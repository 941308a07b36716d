// The whole-run machine: any number of attempts executing, crashing and running stale beside the
// control plane, one committed transaction or provider event per step. A step whose guard does not
// hold leaves the world alone, so every list of steps is a run.
module Worlds {
  import opened Wrappers
  import opened Tables
  import opened Runs
  import opened Ledger
  import opened Approvals
  import Actions

  datatype Reply = Answer(text: string, cost: nat) | Failure(name: string, message: string)

  /** How far a call has come since its gate committed. */
  datatype Stage = Held | Issued | Replied(reply: Reply)

  datatype Phase =
    | Idle
    | InCall(key: string, period: string, estimate: nat, stage: Stage)
    | AtGate(gate: string)
    | InSend(action: string, takenAt: nat, sent: Option<Option<string>>)

  /** What an attempt's flow code has been told, in order. */
  datatype Seen =
    | SawText(call: string, text: string)
    | SawError(call: string, name: string, message: string)
    | SawDecision(gate: string, decision: Decision, draft: string)

  /** One live execution of an attempt. DBOS runs at most one per workflow id. */
  datatype Exec = Exec(phase: Phase, seen: seq<Seen>)

  datatype History = History(run: string, seen: seq<Seen>)

  /** One send that reached the provider: when its row was taken, and when it arrived. */
  datatype Receipt = Receipt(takenAt: nat, at: nat)

  datatype Log = Log(
    reserved: map<Slot, nat>,          // gates that let a call through
    issued: map<Slot, nat>,            // provider calls made
    hits: map<Slot, nat>,              // bumps, crashes and lost completions that hit a call in flight
    histories: set<History>,           // every history any execution has held
    suspended: map<string, string>,    // the gate a run last suspended on
    receipts: map<Slot, seq<Receipt>>) // sends that reached the provider, in order

  /** `stranded` are the runs whose start found their id taken by another run's workflow. */
  datatype World = World(db: Db, execs: map<Attempt, Exec>, log: Log, stranded: set<string>)

  datatype Step =
    | Start(run: string, sameFlow: bool)
    | Claim(a: Attempt)
    | Crash(a: Attempt)
    | Conclude(a: Attempt, status: RunStatus)
    | Bump(run: string)
    | MarkEnded(a: Attempt, status: RunStatus)
    | SetPaused(paused: bool)
    | SetBudget(period: string, limit: nat)
    | Hygiene
    | Tick(ms: nat)
    | Gate(a: Attempt, request: CallRequest, period: string)
    | Issue(a: Attempt)
    | Return(a: Attempt, reply: Reply)
    | Record(a: Attempt)
    | LoseRecord(a: Attempt)
    | Ask(a: Attempt, key: string, draft: string, assignee: Option<string>, id: nat)
    | Suspend(a: Attempt)
    | Decide(batch: DecideRequest, scouted: set<string>)
    | Take(a: Attempt, key: string, channel: Channel)
    | Deliver(a: Attempt, result: Option<string>)
    | Settle(a: Attempt)

  function Count<K>(m: map<K, nat>, k: K): nat { if k in m then m[k] else 0 }

  function Plus<K>(m: map<K, nat>, k: K): map<K, nat> { m[k := Count(m, k) + 1] }

  function Init(defaultLimit: Option<nat>): World {
    World(Db(map[], {}, map[], map[], map[], map[], map[], {}, false, defaultLimit, 0), map[],
          Log(map[], map[], map[], {}, map[], map[]), {})
  }

  /** The attempt a run is on. */
  function Current(w: World, run: string): Attempt
    requires run in w.db.runs
  {
    Attempt(run, w.db.runs[run].attempt)
  }

  /** The workflow row under this attempt's id was enqueued for it, so DBOS can execute it. */
  predicate Owns(w: World, a: Attempt) { a.n == 1 ==> a.run !in w.stranded }

  predicate IsIdle(w: World, a: Attempt) { a in w.execs && w.execs[a].phase == Idle }

  predicate Calling(w: World, a: Attempt, key: string) {
    a in w.execs && w.execs[a].phase.InCall? && w.execs[a].phase.key == key
  }

  /** The run's current attempt has a call in flight on this row. */
  predicate LiveCall(w: World, s: Slot) {
    s.run in w.db.runs && Calling(w, Current(w, s.run), s.key)
  }

  function InPhase(w: World, a: Attempt, phase: Phase): World
    requires a in w.execs
  {
    w.(execs := w.execs[a := w.execs[a].(phase := phase)])
  }

  function Gone(w: World, a: Attempt): World { w.(execs := w.execs - {a}) }

  /** The flow is told something: the execution is idle again and its history longer by one. */
  function Told(w: World, a: Attempt, seen: Seen): World
    requires a in w.execs
  {
    var history := w.execs[a].seen + [seen];
    w.(execs := w.execs[a := Exec(Idle, history)],
       log := w.log.(histories := w.log.histories + {History(a.run, history)}))
  }

  /** Whatever the given runs' current attempts have in flight is hit once. */
  function Hit(w: World, runs: set<string>): map<Slot, nat> {
    map s | s in w.log.reserved ::
      Count(w.log.hits, s) + if s.run in runs && LiveCall(w, s) then 1 else 0
  }

  function Hitting(w: World, runs: set<string>): World {
    w.(log := w.log.(hits := Hit(w, runs)))
  }

  predicate IsCurrent(w: World, a: Attempt) { a.run in w.db.runs && a == Current(w, a.run) }

  /** An execution that ends without recording: a hit on its call, unless a bump was one already. */
  function Lost(w: World, a: Attempt): (w': World)
    ensures OthersGoOn(w, w', a)
    ensures SameRuns(w, w') && InboxQuiet(w, w')
  {
    Gone(if IsCurrent(w, a) then Hitting(w, {a.run}) else w, a)
  }

  function Bumped(w: World, runs: set<string>): World {
    if CanBump(w.db, runs) then Hitting(w, runs).(db := BumpTx(w.db, runs)) else w
  }

  /** Every execution but `a` is exactly where it was. */
  predicate OthersGoOn(w: World, w': World, a: Attempt) {
    w'.execs - {a} == w.execs - {a}
  }

  /** Steps that leave runs, workflows and the set of executions as they are, or lose executions. */
  predicate SameRuns(w: World, w': World) {
    w'.db.runs == w.db.runs && w'.db.workflows == w.db.workflows && w'.execs.Keys <= w.execs.Keys
  }

  /** Nothing the ledger depends on moved: rows, attempts, calls in flight. */
  ghost predicate LedgerQuiet(w: World, w': World) {
    w'.db.calls == w.db.calls && w'.db.budgets == w.db.budgets &&
    w.db.workflows <= w'.db.workflows && w'.log.reserved == w.log.reserved && w'.log.hits == w.log.hits &&
    (forall r | r in w.db.runs :: r in w'.db.runs && w'.db.runs[r].attempt == w.db.runs[r].attempt) &&
    (forall a | a in w'.execs && w'.execs[a].phase.InCall? ::
       a in w.execs && w.execs[a].phase == w'.execs[a].phase) &&
    (forall a | a in w.execs && w.execs[a].phase.InCall? :: a in w'.execs && w'.execs[a].phase.InCall?)
  }

  /** The inbox is as it was, and nobody stopped at a gate. */
  ghost predicate InboxQuiet(w: World, w': World) {
    w'.db.approvals == w.db.approvals && w'.db.gates == w.db.gates && w'.log.suspended == w.log.suspended &&
    forall a | a in w'.execs && w'.execs[a].phase.AtGate? :: a in w.execs && w'.execs[a].phase == w.execs[a].phase
  }

  /** Nothing was sent, and nobody took a send on. */
  ghost predicate OutboxStays(w: World, w': World) {
    w'.db.actions == w.db.actions && w'.db.tasks == w.db.tasks && w'.db.now == w.db.now &&
    w'.log.receipts == w.log.receipts &&
    forall a | a in w'.execs && w'.execs[a].phase.InSend? :: a in w.execs && w'.execs[a].phase == w.execs[a].phase
  }

  /** What a gate's answer does to the execution that asked. */
  function Answered(w: World, a: Attempt, c: CallRequest, period: string, answer: GateOutcome): World
    requires a in w.execs
  {
    var w1 := w.(db := GateTx(w.db, a, c, period, answer));
    match answer
    case Reserved =>
      InPhase(w1, a, InCall(c.key, period, c.estimate, Held))
        .(log := w.log.(reserved := Plus(w.log.reserved, Slot(a.run, c.key))))
    case Cached(text) => Told(w1, a, SawText(c.key, text))
    case StoredError(name, message) => Told(w1, a, SawError(c.key, name, message))
    case _ => w1
  }

  lemma AnswersTouchOneExecution(w: World, a: Attempt, c: CallRequest, period: string, answer: GateOutcome)
    requires a in w.execs
    ensures var w' := Answered(w, a, c, period, answer); OthersGoOn(w, w', a) && SameRuns(w, w')
  {
  }

  lemma AnswersKeepInbox(w: World, a: Attempt, c: CallRequest, period: string, answer: GateOutcome)
    requires a in w.execs
    ensures InboxQuiet(w, Answered(w, a, c, period, answer))
  {
  }

  lemma AnswersKeepOutbox(w: World, a: Attempt, c: CallRequest, period: string, answer: GateOutcome)
    requires a in w.execs
    ensures OutboxStays(w, Answered(w, a, c, period, answer))
  {
  }

  ghost function GateStep(w: World, a: Attempt, c: CallRequest, period: string): (w': World)
    ensures OthersGoOn(w, w', a) && SameRuns(w, w') && InboxQuiet(w, w') && OutboxStays(w, w')
  {
    if !IsIdle(w, a) then w
    else
      var answer := GateAnswer(w.db, a, c, period);
      AnswersTouchOneExecution(w, a, c, period, answer);
      AnswersKeepInbox(w, a, c, period, answer);
      AnswersKeepOutbox(w, a, c, period, answer);
      Answered(w, a, c, period, answer)
  }

  /** A gate's step moves the tables as its transaction does. */
  lemma GateStepCommits(w: World, a: Attempt, c: CallRequest, period: string)
    ensures GateStep(w, a, c, period).db ==
            if IsIdle(w, a) then GateTx(w.db, a, c, period, GateAnswer(w.db, a, c, period)) else w.db
  {
  }

  /** The wrapper's claim: a superseded attempt runs nothing. */
  ghost function ClaimStep(w: World, a: Attempt): (w': World)
    ensures OthersGoOn(w, w', a) && LedgerQuiet(w, w') && InboxQuiet(w, w') && w'.log == w.log
  {
    if a in w.execs || !Owns(w, a) || !Fenced(w.db, a) then w
    else w.(db := StatusTx(w.db, a, Running), execs := w.execs[a := Exec(Idle, [])])
  }

  /** The wrapper's conclusion, or the pause gate's: the flow body is between operations. */
  ghost function ConcludeStep(w: World, a: Attempt, status: RunStatus): (w': World)
    ensures OthersGoOn(w, w', a) && LedgerQuiet(w, w') && InboxQuiet(w, w') && w'.log == w.log
  {
    if IsIdle(w, a) && status in {Done, Failed, Paused} then Gone(w.(db := StatusTx(w.db, a, status)), a) else w
  }

  function IssueStep(w: World, a: Attempt): (w': World)
    ensures OthersGoOn(w, w', a) && SameRuns(w, w') && InboxQuiet(w, w') && w'.db == w.db
  {
    if a in w.execs && w.execs[a].phase.InCall? && w.execs[a].phase.stage == Held then
      var s := Slot(a.run, w.execs[a].phase.key);
      InPhase(w, a, w.execs[a].phase.(stage := Issued))
        .(log := w.log.(issued := Plus(w.log.issued, s)))
    else w
  }

  function ReturnStep(w: World, a: Attempt, reply: Reply): (w': World)
    ensures OthersGoOn(w, w', a) && SameRuns(w, w') && InboxQuiet(w, w') && w'.db == w.db && w'.log == w.log
  {
    if a in w.execs && w.execs[a].phase.InCall? && w.execs[a].phase.stage == Issued
    then InPhase(w, a, w.execs[a].phase.(stage := Replied(reply)))
    else w
  }

  predicate HasReply(w: World, a: Attempt) {
    a in w.execs && w.execs[a].phase.InCall? && w.execs[a].phase.stage.Replied?
  }

  /** The completion, or the error's own transaction. */
  function RecordTx(db: Db, a: Attempt, call: Phase, reply: Reply): (db': Db)
    requires call.InCall?
    ensures db' == db.(budgets := db'.budgets, calls := db'.calls)
  {
    match reply
    case Answer(text, cost) => CompleteTx(db, a, call.key, call.period, text, cost)
    case Failure(name, message) => ErrorTx(db, a, call.key, name, message)
  }

  /** What the flow is told of a reply: the text without its cost, or the error. */
  function SawReply(key: string, reply: Reply): Seen {
    match reply
    case Answer(text, _) => SawText(key, text)
    case Failure(name, message) => SawError(key, name, message)
  }

  /** The reply is recorded and then told to the flow; a stale attempt ends instead. */
  function RecordStep(w: World, a: Attempt): (w': World)
    ensures OthersGoOn(w, w', a) && SameRuns(w, w') && InboxQuiet(w, w') && OutboxStays(w, w')
  {
    if !HasReply(w, a) then w
    else if !Fenced(w.db, a) then Gone(w, a)
    else
      var call := w.execs[a].phase;
      Told(w.(db := RecordTx(w.db, a, call, call.stage.reply)), a, SawReply(call.key, call.stage.reply))
  }

  ghost function AskStep(w: World, a: Attempt, key: string, draft: string, assignee: Option<string>, id: nat): (w': World)
    ensures OthersGoOn(w, w', a) && OutboxStays(w, w')
    ensures SameRuns(w, w') && LedgerQuiet(w, w') && w'.log.issued == w.log.issued
  {
    if !IsIdle(w, a) then w
    else
      var (db, answer) := AskTx(w.db, a, key, draft, assignee, id);
      var w1 := w.(db := db);
      if answer.None? || answer.value !in db.approvals then w1
      else
        var row := db.approvals[answer.value];
        match row.decision
        case None => InPhase(w1, a, AtGate(key))
        case Some(decision) =>
          Told(w1, a, SawDecision(key, decision, if row.edited.Some? then row.edited.value else row.draft))
  }

  ghost function SuspendStep(w: World, a: Attempt): (w': World)
    ensures OthersGoOn(w, w', a) && OutboxStays(w, w')
    ensures LedgerQuiet(w, w') && w'.log.issued == w.log.issued
  {
    if a in w.execs && w.execs[a].phase.AtGate? then
      var w1 := Gone(w.(db := StatusTx(w.db, a, Waiting)), a);
      if Fenced(w.db, a) then w1.(log := w.log.(suspended := w.log.suspended[a.run := w.execs[a].phase.gate])) else w1
    else w
  }

  ghost function DecideStep(w: World, q: DecideRequest, scouted: set<string>): World {
    if DecideAnswer(w.db, q, scouted).Fresh? then Hitting(w, scouted).(db := DecidedDb(w.db, q, scouted)) else w
  }

  ghost function TakeStep(w: World, a: Attempt, key: string, channel: Channel): (w': World)
    ensures OthersGoOn(w, w', a)
    ensures SameRuns(w, w') && LedgerQuiet(w, w') && InboxQuiet(w, w') && w'.log.issued == w.log.issued
  {
    var s := Slot(a.run, key);
    if !IsIdle(w, a) || (s in w.db.actions && w.db.actions[s].channel != channel) then w
    else
      var (db, outcome) := Actions.TakeTx(w.db, a, key, channel);
      if outcome.Send? then InPhase(w.(db := db), a, InSend(key, w.db.now, None)) else w.(db := db)
  }

  function Receipts(w: World, s: Slot): seq<Receipt> {
    if s in w.log.receipts then w.log.receipts[s] else []
  }

  ghost function DeliverStep(w: World, a: Attempt, result: Option<string>): (w': World)
    ensures OthersGoOn(w, w', a)
    ensures SameRuns(w, w') && LedgerQuiet(w, w') && InboxQuiet(w, w') && w'.log.issued == w.log.issued
  {
    if a in w.execs && w.execs[a].phase.InSend? && w.execs[a].phase.sent.None? then
      var phase := w.execs[a].phase;
      var s := Slot(a.run, phase.action);
      InPhase(w, a, phase.(sent := Some(result)))
        .(log := w.log.(receipts := w.log.receipts[s := Receipts(w, s) + [Receipt(phase.takenAt, w.db.now)]]))
    else w
  }

  ghost function SettleStep(w: World, a: Attempt): (w': World)
    ensures OthersGoOn(w, w', a)
    ensures SameRuns(w, w') && LedgerQuiet(w, w') && InboxQuiet(w, w') && w'.log.issued == w.log.issued
  {
    if a in w.execs && w.execs[a].phase.InSend? && w.execs[a].phase.sent.Some? then
      InPhase(w.(db := Actions.SettleTx(w.db, a, w.execs[a].phase.action, w.execs[a].phase.sent.value)), a, Idle)
    else w
  }

  /** A start whose id another run's workflow has leaves a run no workflow of its own. */
  function StartStep(w: World, run: string, sameFlow: bool): (w': World)
    ensures w' == w.(db := StartTx(w.db, run, sameFlow), stranded := w'.stranded)
  {
    w.(db := StartTx(w.db, run, sameFlow),
       stranded := if CanStart(w.db, run, sameFlow) && run in w.db.workflows then w.stranded + {run} else w.stranded)
  }

  ghost function Next(w: World, step: Step): World {
    match step
    case Start(run, sameFlow) => StartStep(w, run, sameFlow)
    case Claim(a) => ClaimStep(w, a)
    case Crash(a) => Lost(w, a)
    case Conclude(a, status) => ConcludeStep(w, a, status)
    case Bump(run) => Bumped(w, {run})
    case MarkEnded(a, status) =>
      if a !in w.execs && status in {Done, Failed} && a.run in w.db.runs && w.db.runs[a.run].status == Running
      then w.(db := StatusTx(w.db, a, status)) else w
    case SetPaused(paused) => w.(db := w.db.(paused := paused))
    case SetBudget(period, limit) => w.(db := SetBudgetTx(w.db, period, limit))
    case Hygiene => w.(db := Actions.SweepTx(AbandonTx(w.db)))
    case Tick(ms) => w.(db := w.db.(now := w.db.now + ms))
    case Gate(a, request, period) => GateStep(w, a, request, period)
    case Issue(a) => IssueStep(w, a)
    case Return(a, reply) => ReturnStep(w, a, reply)
    case Record(a) => RecordStep(w, a)
    case LoseRecord(a) => if HasReply(w, a) then Lost(w, a) else w
    case Ask(a, key, draft, assignee, id) => AskStep(w, a, key, draft, assignee, id)
    case Suspend(a) => SuspendStep(w, a)
    case Decide(batch, scouted) => DecideStep(w, batch, scouted)
    case Take(a, key, channel) => TakeStep(w, a, key, channel)
    case Deliver(a, result) => DeliverStep(w, a, result)
    case Settle(a) => SettleStep(w, a)
  }

  ghost function After(w: World, steps: seq<Step>): World
    decreases |steps|
  {
    if steps == [] then w else Next(After(w, steps[..|steps| - 1]), steps[|steps| - 1])
  }

  /** Any state of any run: what an empty database becomes after some list of steps. */
  ghost function Reached(limit: Option<nat>, steps: seq<Step>): World {
    After(Init(limit), steps)
  }

  /**
   * What the bound on money in flight rests on: an admin does not lower a budget, a reply costs at
   * most its estimate, and a key re-enters its row with an estimate no higher than the row's.
   */
  predicate Careful(w: World, step: Step) {
    match step
    case SetBudget(period, limit) => period in w.db.budgets ==> w.db.budgets[period].limit <= limit
    case Gate(a, c, _) => Slot(a.run, c.key) in w.db.calls ==> c.estimate <= w.db.calls[Slot(a.run, c.key)].estimate
    case Return(a, Answer(_, cost)) => a in w.execs && w.execs[a].phase.InCall? ==> cost <= w.execs[a].phase.estimate
    case _ => true
  }

  ghost predicate CarefulRun(limit: Option<nat>, steps: seq<Step>) {
    forall i {:trigger steps[..i]} | 0 <= i < |steps| :: Careful(Reached(limit, steps[..i]), steps[i])
  }

  lemma CarefulGoesOn(limit: Option<nat>, steps: seq<Step>, step: Step)
    requires CarefulRun(limit, steps) && Careful(Reached(limit, steps), step)
    ensures CarefulRun(limit, steps + [step])
  {
    var all := steps + [step];
    forall i | 0 <= i < |all| ensures Careful(Reached(limit, all[..i]), all[i]) {
      assert all[..i] == steps[..i];
      assert steps[..|steps|] == steps;
    }
  }

  lemma Then(limit: Option<nat>, steps: seq<Step>, step: Step)
    ensures Reached(limit, steps + [step]) == Next(Reached(limit, steps), step)
  {
    assert (steps + [step])[..|steps|] == steps;
  }

  /** An attempt that is on its run starts executing. */
  lemma PlayClaim(limit: Option<nat>, steps: seq<Step>, a: Attempt) returns (longer: seq<Step>, w: World)
    requires var w := Reached(limit, steps); a !in w.execs && Owns(w, a) && Fenced(w.db, a)
    ensures steps <= longer
    ensures CarefulRun(limit, steps) ==> CarefulRun(limit, longer)
    ensures var before := Reached(limit, steps);
            w == Reached(limit, longer) &&
            w == before.(db := StatusTx(before.db, a, Running), execs := before.execs[a := Exec(Idle, [])])
  {
    longer, w := Play(limit, steps, Claim(a));
  }

  /** The smallest running system: one run, its first attempt executing, nothing else. */
  lemma OneRun(limit: Option<nat>, run: string) returns (steps: seq<Step>)
    ensures CarefulRun(limit, steps)
    ensures var w := Reached(limit, steps);
            w == Init(limit).(db := w.db, execs := w.execs) &&
            w.db == Init(limit).db.(runs := map[run := Run(1, run, Running)], workflows := {run}) &&
            w.execs == map[Attempt(run, 1) := Exec(Idle, [])]
  {
    var w: World;
    steps, w := Play(limit, [], Start(run, false));
    steps, w := PlayClaim(limit, steps, Attempt(run, 1));
  }

  /** One step more, from any reached state. */
  lemma Play(limit: Option<nat>, steps: seq<Step>, step: Step) returns (longer: seq<Step>, w: World)
    ensures steps <= longer
    ensures w == Reached(limit, longer) == Next(Reached(limit, steps), step)
    ensures CarefulRun(limit, steps) && Careful(Reached(limit, steps), step) ==> CarefulRun(limit, longer)
  {
    Then(limit, steps, step);
    if CarefulRun(limit, steps) && Careful(Reached(limit, steps), step) { CarefulGoesOn(limit, steps, step); }
    longer, w := steps + [step], Next(Reached(limit, steps), step);
  }

  lemma PlayGate(limit: Option<nat>, steps: seq<Step>, a: Attempt, c: CallRequest, period: string)
    returns (longer: seq<Step>, w: World)
    requires var w := Reached(limit, steps);
             IsIdle(w, a) && GateAnswer(w.db, a, c, period) == GateOutcome.Reserved
    ensures steps <= longer
    ensures CarefulRun(limit, steps) && Careful(Reached(limit, steps), Gate(a, c, period)) ==> CarefulRun(limit, longer)
    ensures var before := Reached(limit, steps);
            w == Reached(limit, longer) && w.stranded == before.stranded &&
            w.db == GateTx(before.db, a, c, period, GateOutcome.Reserved) && w.log.issued == before.log.issued &&
            w.execs == before.execs[a := Exec(InCall(c.key, period, c.estimate, Held), before.execs[a].seen)]
  {
    longer, w := Play(limit, steps, Gate(a, c, period));
  }

  /** Another run starts and its first attempt executes. */
  lemma PlayRun(limit: Option<nat>, steps: seq<Step>, run: string) returns (longer: seq<Step>, w: World)
    requires var w := Reached(limit, steps);
             run !in w.db.runs && run !in w.db.workflows && Attempt(run, 1) !in w.execs && run !in w.stranded
    ensures steps <= longer
    ensures CarefulRun(limit, steps) ==> CarefulRun(limit, longer)
    ensures var before := Reached(limit, steps);
            w == Reached(limit, longer) && w.stranded == before.stranded && w.db == StartTx(before.db, run, false) &&
            w.execs == before.execs[Attempt(run, 1) := Exec(Idle, [])]
  {
    longer, w := Play(limit, steps, Start(run, false));
    var started := w;
    longer, w := PlayClaim(limit, longer, Attempt(run, 1));
    assert w.db.runs == started.db.runs;
  }

  lemma PlayCrash(limit: Option<nat>, steps: seq<Step>, a: Attempt) returns (longer: seq<Step>, w: World)
    ensures steps <= longer
    ensures CarefulRun(limit, steps) ==> CarefulRun(limit, longer)
    ensures var before := Reached(limit, steps);
            w == Reached(limit, longer) && w == before.(execs := before.execs - {a}, log := before.log.(hits := w.log.hits))
  {
    longer, w := Play(limit, steps, Crash(a));
  }

  /** The executing process dies and the workflow is executed again from the start. */
  lemma PlayRecovery(limit: Option<nat>, steps: seq<Step>, a: Attempt) returns (longer: seq<Step>, w: World)
    requires var w := Reached(limit, steps); a in w.execs && Owns(w, a) && Fenced(w.db, a)
    ensures steps <= longer
    ensures CarefulRun(limit, steps) ==> CarefulRun(limit, longer)
    ensures var before := Reached(limit, steps);
            w == Reached(limit, longer) && w.stranded == before.stranded && w.db == StatusTx(before.db, a, Running) &&
            w.execs == before.execs[a := Exec(Idle, [])]
  {
    longer, w := PlayCrash(limit, steps, a);
    longer, w := PlayClaim(limit, longer, a);
  }

  lemma PlayBump(limit: Option<nat>, steps: seq<Step>, run: string) returns (longer: seq<Step>, w: World)
    requires CanBump(Reached(limit, steps).db, {run})
    ensures steps <= longer
    ensures CarefulRun(limit, steps) ==> CarefulRun(limit, longer)
    ensures var before := Reached(limit, steps);
            w == Reached(limit, longer) && w.stranded == before.stranded &&
            w.db == BumpTx(before.db, {run}) && w.execs == before.execs
  {
    longer, w := Play(limit, steps, Bump(run));
  }

  /** A bump overtakes the run's attempt, and the next one starts executing beside it. */
  lemma PlayOvertake(limit: Option<nat>, steps: seq<Step>, run: string) returns (longer: seq<Step>, w: World)
    requires var w := Reached(limit, steps);
             run in w.db.runs && CanBump(w.db, {run}) && Attempt(run, w.db.runs[run].attempt + 1) !in w.execs
    ensures steps <= longer
    ensures CarefulRun(limit, steps) ==> CarefulRun(limit, longer)
    ensures var before := Reached(limit, steps);
            w == Reached(limit, longer) && w.stranded == before.stranded && w.db == BumpTx(before.db, {run}) &&
            w.execs == before.execs[Attempt(run, before.db.runs[run].attempt + 1) := Exec(Idle, [])]
  {
    var before := Reached(limit, steps);
    longer, w := PlayBump(limit, steps, run);
    var bumped := w;
    longer, w := PlayClaim(limit, longer, Attempt(run, before.db.runs[run].attempt + 1));
    assert w.db.runs == bumped.db.runs;
  }

  lemma PlayIssue(limit: Option<nat>, steps: seq<Step>, a: Attempt) returns (longer: seq<Step>, w: World)
    requires var w := Reached(limit, steps); a in w.execs && w.execs[a].phase.InCall? && w.execs[a].phase.stage == Held
    ensures steps <= longer
    ensures var before := Reached(limit, steps);
            w == Reached(limit, longer) && w.stranded == before.stranded && w.db == before.db &&
            w.log == before.log.(issued := Plus(before.log.issued, Slot(a.run, before.execs[a].phase.key))) &&
            w.execs == before.execs[a := before.execs[a].(phase := before.execs[a].phase.(stage := Issued))]
  {
    longer, w := Play(limit, steps, Issue(a));
  }

  lemma PlayReturn(limit: Option<nat>, steps: seq<Step>, a: Attempt, reply: Reply) returns (longer: seq<Step>, w: World)
    requires var w := Reached(limit, steps); a in w.execs && w.execs[a].phase.InCall? && w.execs[a].phase.stage == Issued
    ensures steps <= longer
    ensures var before := Reached(limit, steps);
            w == Reached(limit, longer) && w.stranded == before.stranded && w.db == before.db && w.log == before.log &&
            w.execs == before.execs[a := before.execs[a].(phase := before.execs[a].phase.(stage := Replied(reply)))]
  {
    longer, w := Play(limit, steps, Return(a, reply));
  }

  /** A call whose gate committed is made and answered. */
  lemma PlayProvider(limit: Option<nat>, steps: seq<Step>, a: Attempt, reply: Reply)
    returns (longer: seq<Step>, w: World)
    requires var w := Reached(limit, steps); a in w.execs && w.execs[a].phase.InCall? && w.execs[a].phase.stage == Held
    ensures steps <= longer
    ensures var before := Reached(limit, steps);
            w == Reached(limit, longer) && w.stranded == before.stranded && a in w.execs && w.db == before.db &&
            w.log == before.log.(issued := Plus(before.log.issued, Slot(a.run, before.execs[a].phase.key))) &&
            w.execs == before.execs[a := Exec(before.execs[a].phase.(stage := Replied(reply)), before.execs[a].seen)]
  {
    longer, w := PlayIssue(limit, steps, a);
    longer, w := PlayReturn(limit, longer, a, reply);
  }

  /** And recorded, by an attempt that is not stale. */
  lemma PlayCall(limit: Option<nat>, steps: seq<Step>, a: Attempt, reply: Reply)
    returns (longer: seq<Step>, w: World)
    requires var w := Reached(limit, steps);
             a in w.execs && w.execs[a].phase.InCall? && w.execs[a].phase.stage == Held && Fenced(w.db, a)
    ensures steps <= longer
    ensures var before := Reached(limit, steps);
            w == Reached(limit, longer) && w.stranded == before.stranded && a in w.execs &&
            w.db == RecordTx(before.db, a, before.execs[a].phase, reply) &&
            w.log.issued == Plus(before.log.issued, Slot(a.run, before.execs[a].phase.key)) &&
            w.execs == before.execs[a := Exec(Idle, before.execs[a].seen + [SawReply(before.execs[a].phase.key, reply)])]
  {
    longer, w := PlayProvider(limit, steps, a, reply);
    longer, w := Play(limit, longer, Record(a));
  }
}
