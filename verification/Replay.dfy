// Replay agreement: what an attempt of a flow was once told for a key is what every other attempt
// of the run is told for it, so a deterministic flow retraces the attempt before it.
module Replay {
  import opened Wrappers
  import opened Tables
  import opened Runs
  import opened Ledger
  import opened Approvals
  import opened Worlds
  import opened Fences
  import opened Calls
  import opened Inbox
  import Actions

  /** The draft a decided gate hands on: the edited one when a decider replaced it. */
  function DraftOf(row: Approval): string {
    if row.edited.Some? then row.edited.value else row.draft
  }

  /** The tables still say what the flow was told. */
  predicate Agrees(db: Db, run: string, seen: Seen) {
    match seen
    case SawText(call, text) =>
      var s := Slot(run, call);
      s in db.calls && db.calls[s].status.Ok? && db.calls[s].status.text == text
    case SawError(call, name, message) =>
      var s := Slot(run, call);
      s in db.calls && db.calls[s].status == Error(name, message)
    case SawDecision(gate, decision, draft) =>
      var s := Slot(run, gate);
      s in db.gates && db.gates[s] in db.approvals &&
      db.approvals[db.gates[s]].decision == Some(decision) && DraftOf(db.approvals[db.gates[s]]) == draft
  }

  ghost predicate Recalled(db: Db, h: History) {
    forall i {:trigger h.seen[i]} | 0 <= i < |h.seen| :: Agrees(db, h.run, h.seen[i])
  }

  predicate Kept(w: World, a: Attempt)
    requires a in w.execs
  {
    w.execs[a].seen == [] || History(a.run, w.execs[a].seen) in w.log.histories
  }

  ghost predicate Remembered(w: World) {
    (forall h {:trigger Recalled(w.db, h)} | h in w.log.histories :: Recalled(w.db, h)) &&
    (forall a {:trigger Kept(w, a)} | a in w.execs :: Kept(w, a))
  }

  lemma AgreementPersists(w: World, step: Step, run: string, seen: Seen)
    requires Tokened(w) && Ledgered(w) && Agrees(w.db, run, seen)
    ensures Agrees(Next(w, step).db, run, seen)
  {
    match seen
    case SawText(call, _) => RowsPersist(w, step, Slot(run, call));
    case SawError(call, _, _) => RowsPersist(w, step, Slot(run, call));
    case SawDecision(gate, _, _) =>
      StepKeepsDecisions(w, step);
      assert RowPersists(w.db, Next(w, step).db, w.db.gates[Slot(run, gate)]);
  }

  lemma RecallPersists(w: World, step: Step, h: History)
    requires Tokened(w) && Ledgered(w) && Recalled(w.db, h)
    ensures Recalled(Next(w, step).db, h)
  {
    forall i | 0 <= i < |h.seen| ensures Agrees(Next(w, step).db, h.run, h.seen[i]) {
      AgreementPersists(w, step, h.run, h.seen[i]);
    }
  }

  /** The one way histories grow: some attempt is told one thing more. */
  ghost predicate ToldOnce(w: World, w': World, a: Attempt, seen: Seen) {
    a in w.execs && a in w'.execs && w'.execs == w.execs[a := w'.execs[a]] &&
    w'.execs[a].seen == w.execs[a].seen + [seen] &&
    w'.log.histories == w.log.histories + {History(a.run, w'.execs[a].seen)}
  }

  /** Nobody was told anything: executions start with nothing, go on as they were, or end. */
  ghost predicate NothingTold(w: World, w': World) {
    w'.log.histories == w.log.histories &&
    forall a | a in w'.execs :: w'.execs[a].seen == [] || (a in w.execs && w'.execs[a].seen == w.execs[a].seen)
  }

  lemma SilenceKeepsRemembered(w: World, step: Step)
    requires Tokened(w) && Ledgered(w) && Remembered(w) && NothingTold(w, Next(w, step))
    ensures Remembered(Next(w, step))
  {
    var w' := Next(w, step);
    forall h | h in w'.log.histories ensures Recalled(w'.db, h) {
      assert Recalled(w.db, h);
      RecallPersists(w, step, h);
    }
    forall a | a in w'.execs ensures Kept(w', a) { assert a in w.execs ==> Kept(w, a); }
  }

  lemma TellingKeepsRemembered(w: World, step: Step, a: Attempt, seen: Seen)
    requires Tokened(w) && Ledgered(w) && Remembered(w) && ToldOnce(w, Next(w, step), a, seen)
    requires Agrees(Next(w, step).db, a.run, seen)
    ensures Remembered(Next(w, step))
  {
    var w' := Next(w, step);
    var longer := History(a.run, w'.execs[a].seen);
    forall h | h in w'.log.histories ensures Recalled(w'.db, h) {
      var known := if h == longer then History(a.run, w.execs[a].seen) else h;
      assert Kept(w, a);
      assert Recalled(w.db, known);
      RecallPersists(w, step, known);
      if h == longer {
        forall i | 0 <= i < |h.seen| ensures Agrees(w'.db, h.run, h.seen[i]) {
          assert i < |known.seen| ==> h.seen[i] == known.seen[i];
        }
      }
    }
    forall b | b in w'.execs ensures Kept(w', b) { assert b in w.execs ==> Kept(w, b); }
  }

  /** A cached row is told as it stands; nothing else a gate answers reaches the flow as a value. */
  lemma GateTells(w: World, a: Attempt, c: CallRequest, period: string)
    requires Tokened(w) && Ledgered(w) && Remembered(w)
    ensures Remembered(GateStep(w, a, c, period))
  {
    var step := Gate(a, c, period);
    if !IsIdle(w, a) { SilenceKeepsRemembered(w, step); return; }
    match GateAnswer(w.db, a, c, period)
    case Cached(text) => TellingKeepsRemembered(w, step, a, SawText(c.key, text));
    case StoredError(name, message) => TellingKeepsRemembered(w, step, a, SawError(c.key, name, message));
    case _ => SilenceKeepsRemembered(w, step);
  }

  /** A reply is told only by the transaction that recorded it. */
  lemma RecordTells(w: World, a: Attempt)
    requires Tokened(w) && Ledgered(w) && Remembered(w)
    ensures Remembered(RecordStep(w, a))
  {
    if HasReply(w, a) && Fenced(w.db, a) {
      assert FlightOk(w, a);
      var call := w.execs[a].phase;
      TellingKeepsRemembered(w, Record(a), a, SawReply(call.key, call.stage.reply));
    } else {
      SilenceKeepsRemembered(w, Record(a));
    }
  }

  lemma AskTells(w: World, step: Step)
    requires Tokened(w) && Ledgered(w) && Remembered(w) && step.Ask?
    ensures Remembered(Next(w, step))
  {
    var a, s := step.a, Slot(step.a.run, step.key);
    if IsIdle(w, a) && Fenced(w.db, a) && s in w.db.gates && w.db.gates[s] in w.db.approvals
       && w.db.approvals[w.db.gates[s]].decision.Some? {
      var row := w.db.approvals[w.db.gates[s]];
      TellingKeepsRemembered(w, step, a, SawDecision(step.key, row.decision.value, DraftOf(row)));
    } else {
      SilenceKeepsRemembered(w, step);
    }
  }

  lemma CallStepsTellNothing(w: World, step: Step)
    requires step.Issue? || step.Return? || step.LoseRecord? || step.Crash?
    ensures NothingTold(w, Next(w, step))
  {
  }

  lemma RunStepsTellNothing(w: World, step: Step)
    requires step.Claim? || step.Conclude? || step.Suspend?
    ensures NothingTold(w, Next(w, step))
  {
  }

  lemma TakeTellsNothing(w: World, a: Attempt, key: string, channel: Channel)
    ensures NothingTold(w, TakeStep(w, a, key, channel))
  {
  }

  lemma SendStepsTellNothing(w: World, step: Step)
    requires step.Take? || step.Deliver? || step.Settle?
    ensures NothingTold(w, Next(w, step))
  {
    match step
    case Take(a, key, channel) => TakeTellsNothing(w, a, key, channel);
    case Deliver(a, result) => assert NothingTold(w, DeliverStep(w, a, result));
    case Settle(a) => assert NothingTold(w, SettleStep(w, a));
  }

  lemma ControlStepsTellNothing(w: World, step: Step)
    requires step.Start? || step.Bump? || step.MarkEnded? || step.SetPaused? || step.SetBudget? || step.Hygiene? ||
             step.Tick? || step.Decide?
    ensures NothingTold(w, Next(w, step))
  {
  }

  lemma OtherStepsTellNothing(w: World, step: Step)
    requires !step.Gate? && !step.Record? && !step.Ask?
    ensures NothingTold(w, Next(w, step))
  {
    if step.Issue? || step.Return? || step.LoseRecord? || step.Crash? {
      CallStepsTellNothing(w, step);
    } else if step.Claim? || step.Conclude? || step.Suspend? {
      RunStepsTellNothing(w, step);
    } else if step.Take? || step.Deliver? || step.Settle? {
      SendStepsTellNothing(w, step);
    } else {
      ControlStepsTellNothing(w, step);
    }
  }

  lemma StepKeepsRemembered(w: World, step: Step)
    requires Tokened(w) && Ledgered(w) && Remembered(w)
    ensures Remembered(Next(w, step))
  {
    match step
    case Gate(a, c, period) => GateTells(w, a, c, period);
    case Record(a) => RecordTells(w, a);
    case Ask(_, _, _, _, _) => AskTells(w, step);
    case _ => OtherStepsTellNothing(w, step); SilenceKeepsRemembered(w, step);
  }

  lemma {:induction false} HistoriesAreRemembered(limit: Option<nat>, steps: seq<Step>)
    ensures Remembered(Reached(limit, steps))
    decreases |steps|
  {
    if steps != [] {
      HistoriesAreRemembered(limit, steps[..|steps| - 1]);
      LedgerIsSound(limit, steps[..|steps| - 1]);
      StepKeepsRemembered(Reached(limit, steps[..|steps| - 1]), steps[|steps| - 1]);
    }
  }

  // ----- flows as programs -----

  /** What a flow waits for next: the answer of one call, or the decision of one gate. */
  datatype Question = CallNamed(key: string) | GateNamed(key: string)

  /** A deterministic flow: what it was told so far determines what it asks next, if anything. */
  type Program = seq<Seen> -> Option<Question>

  function QuestionOf(seen: Seen): Question {
    match seen
    case SawText(call, _) => CallNamed(call)
    case SawError(call, _, _) => CallNamed(call)
    case SawDecision(gate, _, _) => GateNamed(gate)
  }

  ghost predicate Follows(flow: Program, seen: seq<Seen>) {
    forall i {:trigger seen[i]} | 0 <= i < |seen| :: flow(seen[..i]) == Some(QuestionOf(seen[i]))
  }

  /** The tables answer a question in one way only. */
  lemma OneAnswer(db: Db, run: string, x: Seen, y: Seen)
    requires Agrees(db, run, x) && Agrees(db, run, y) && QuestionOf(x) == QuestionOf(y)
    ensures x == y
  {
  }

  lemma {:induction false} SamePath(db: Db, run: string, flow: Program, shorter: seq<Seen>, longer: seq<Seen>, n: nat)
    requires Recalled(db, History(run, shorter)) && Recalled(db, History(run, longer))
    requires Follows(flow, shorter) && Follows(flow, longer) && n <= |shorter| <= |longer|
    ensures shorter[..n] == longer[..n]
    decreases n
  {
    if n != 0 {
      var i := n - 1;
      SamePath(db, run, flow, shorter, longer, i);
      assert History(run, shorter).seen[i] == shorter[i] && History(run, longer).seen[i] == longer[i];
      OneAnswer(db, run, shorter[i], longer[i]);
      assert shorter[..n] == shorter[..i] + [shorter[i]] && longer[..n] == longer[..i] + [longer[i]];
    }
  }

  /**
   * Any two executions of a run, of whatever attempts, whether live, crashed, stale or over: what
   * one was told is a beginning of what the other was told.
   */
  lemma ExecutionsRetrace(limit: Option<nat>, steps: seq<Step>, run: string, flow: Program,
                          x: seq<Seen>, y: seq<Seen>)
    requires var w := Reached(limit, steps);
             History(run, x) in w.log.histories && History(run, y) in w.log.histories
    requires Follows(flow, x) && Follows(flow, y)
    ensures x <= y || y <= x
  {
    var db := Reached(limit, steps).db;
    HistoriesAreRemembered(limit, steps);
    assert Recalled(db, History(run, x)) && Recalled(db, History(run, y));
    if |x| <= |y| { SamePath(db, run, flow, x, y, |x|); } else { SamePath(db, run, flow, y, x, |y|); }
  }

  /** And no key is ever answered in two ways, whatever order the flow asked in. */
  lemma KeysAnswerOnce(limit: Option<nat>, steps: seq<Step>, g: History, h: History, i: nat, j: nat)
    requires var w := Reached(limit, steps); g in w.log.histories && h in w.log.histories
    requires g.run == h.run && i < |g.seen| && j < |h.seen| && QuestionOf(g.seen[i]) == QuestionOf(h.seen[j])
    ensures g.seen[i] == h.seen[j]
  {
    var db := Reached(limit, steps).db;
    HistoriesAreRemembered(limit, steps);
    assert Recalled(db, g) && Recalled(db, h);
    OneAnswer(db, g.run, g.seen[i], h.seen[j]);
  }
}
