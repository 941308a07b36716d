// How often an action is delivered, given how long its provider remembers an idempotency key.
module Deliveries {
  import opened Wrappers
  import opened Tokens
  import opened Tables
  import opened Runs
  import opened Worlds
  import opened Fences
  import opened Actions
  import opened Sends

  /** A channel that cannot dedupe reaches its provider at most once per row, whatever happens. */
  lemma OneSendWithoutDedupe(limit: Option<nat>, steps: seq<Step>, s: Slot)
    requires var db := Reached(limit, steps).db; s in db.actions && !db.actions[s].channel.dedupes
    ensures |Receipts(Reached(limit, steps), s)| <= 1
  {
    OutboxIsSound(limit, steps);
    assert LoneSend(Reached(limit, steps), s);
  }

  /** Exactly one task asks about an uncertain row, from the flow or from the sweep; no task asks about another. */
  lemma OneTaskPerUncertainRow(limit: Option<nat>, steps: seq<Step>, s: Slot)
    ensures var db := Reached(limit, steps).db;
            var flow, sweep := Task(FromFlow, s) in db.tasks, Task(FromSweep, s) in db.tasks;
            if s in db.actions && db.actions[s].status == Uncertain then flow != sweep else !flow && !sweep
  {
    OutboxIsSound(limit, steps);
    assert ActionOk(Reached(limit, steps).db, s);
  }

  /** A row keeps its channel and its first attempt's time, and is over once sent or uncertain. */
  predicate ActionPersists(db: Db, db': Db, s: Slot)
    requires s in db.actions
  {
    s in db'.actions && db'.actions[s].startedAt == db.actions[s].startedAt &&
    db'.actions[s].channel == db.actions[s].channel &&
    (db.actions[s].status.Sent? || db.actions[s].status == Uncertain ==> db'.actions[s] == db.actions[s])
  }

  lemma SettlePersists(w: World, a: Attempt, s: Slot)
    requires Tokened(w) && Dispatched(w) && s in w.db.actions
    ensures ActionPersists(w.db, SettleStep(w, a).db, s)
  {
    FenceIsCurrency(w, a);
    assert a in w.execs ==> TakerOk(w, a);
  }

  lemma TakePersists(w: World, a: Attempt, key: string, channel: Channel, s: Slot)
    requires s in w.db.actions
    ensures ActionPersists(w.db, TakeStep(w, a, key, channel).db, s)
  {
    var db' := TakeTx(w.db, a, key, channel).0;
    assert ActionPersists(w.db, db', s);
  }

  lemma SweepPersists(w: World, s: Slot)
    requires s in w.db.actions
    ensures ActionPersists(w.db, Next(w, Hygiene).db, s)
  {
  }

  lemma OtherStepsPersist(w: World, step: Step, s: Slot)
    requires !step.Take? && !step.Deliver? && !step.Settle? && !step.Hygiene? && s in w.db.actions
    ensures ActionPersists(w.db, Next(w, step).db, s)
  {
    OtherStepsSendNothing(w, step);
  }

  lemma DeliverPersists(w: World, a: Attempt, result: Option<string>, s: Slot)
    requires s in w.db.actions
    ensures ActionPersists(w.db, DeliverStep(w, a, result).db, s)
  {
  }

  lemma SendStepPersists(w: World, step: Step, s: Slot)
    requires Tokened(w) && Dispatched(w) && s in w.db.actions && (step.Settle? || step.Take? || step.Deliver?)
    ensures ActionPersists(w.db, Next(w, step).db, s)
  {
    match step
    case Settle(a) => SettlePersists(w, a, s);
    case Take(a, key, channel) => TakePersists(w, a, key, channel, s);
    case Deliver(a, result) => DeliverPersists(w, a, result, s);
  }

  lemma StepKeepsActions(w: World, step: Step, s: Slot)
    requires Tokened(w) && Dispatched(w) && s in w.db.actions
    ensures ActionPersists(w.db, Next(w, step).db, s)
  {
    match step
    case Settle(_) => SendStepPersists(w, step, s);
    case Take(_, _, _) => SendStepPersists(w, step, s);
    case Deliver(_, _) => SendStepPersists(w, step, s);
    case Hygiene => SweepPersists(w, s);
    case _ => OtherStepsPersist(w, step, s);
  }

  /** `ok` and `uncertain` are terminal over any continuation of any run. */
  lemma {:induction false} ActionsEndOnce(limit: Option<nat>, steps: seq<Step>, later: seq<Step>, s: Slot)
    requires s in Reached(limit, steps).db.actions
    ensures ActionPersists(Reached(limit, steps).db, Reached(limit, steps + later).db, s)
    decreases |later|
  {
    if later == [] {
      assert steps + later == steps;
    } else {
      var shorter, step := later[..|later| - 1], later[|later| - 1];
      ActionsEndOnce(limit, steps, shorter, s);
      OutboxIsSound(limit, steps + shorter);
      RunsAreTokened(limit, steps + shorter);
      StepKeepsActions(Reached(limit, steps + shorter), step, s);
      Then(limit, steps + shorter, step);
      assert steps + later == steps + shorter + [step];
    }
  }

  // ----- a provider that dedupes -----

  /** How long a provider honours an idempotency key after delivering under it. */
  predicate Remembers(memory: Option<nat>, deliveredAt: nat, at: nat) {
    memory.None? || at - deliveredAt <= memory.value
  }

  /** Deliveries made of these receipts, and when the latest was. */
  function Delivered(rs: seq<Receipt>, memory: Option<nat>): (nat, nat)
    decreases |rs|
  {
    if rs == [] then (0, 0)
    else
      var (n, deliveredAt) := Delivered(rs[..|rs| - 1], memory);
      var at := rs[|rs| - 1].at;
      if n > 0 && Remembers(memory, deliveredAt, at) then (n, deliveredAt) else (n + 1, at)
  }

  lemma {:induction false} OneDelivery(rs: seq<Receipt>, memory: Option<nat>)
    requires forall i | 0 <= i < |rs| :: Remembers(memory, rs[0].at, rs[i].at)
    ensures Delivered(rs, memory) == if rs == [] then (0, 0) else (1, rs[0].at)
    decreases |rs|
  {
    if rs != [] {
      OneDelivery(rs[..|rs| - 1], memory);
      assert Remembers(memory, rs[0].at, rs[|rs| - 1].at);
    }
  }

  /** A send reaches its provider within `delay` of the transaction that took its row. */
  predicate Prompt(w: World, step: Step, delay: nat) {
    step.Deliver? && step.a in w.execs && w.execs[step.a].phase.InSend? ==>
      w.db.now - w.execs[step.a].phase.takenAt <= delay
  }

  ghost predicate PromptRun(limit: Option<nat>, steps: seq<Step>, delay: nat) {
    forall i {:trigger steps[..i]} | 0 <= i < |steps| :: Prompt(Reached(limit, steps[..i]), steps[i], delay)
  }

  ghost predicate PromptReceipts(w: World, s: Slot, delay: nat) {
    forall i {:trigger Receipts(w, s)[i]} | 0 <= i < |Receipts(w, s)| ::
      Receipts(w, s)[i].at - Receipts(w, s)[i].takenAt <= delay
  }

  lemma OnlyDeliveriesAreReceived(w: World, step: Step)
    requires !step.Deliver?
    ensures Next(w, step).log.receipts == w.log.receipts
  {
    if !step.Take? && !step.Settle? && !step.Hygiene? { OtherStepsSendNothing(w, step); }
  }

  lemma StepKeepsPrompt(w: World, step: Step, s: Slot, delay: nat)
    requires PromptReceipts(w, s, delay) && Prompt(w, step, delay)
    ensures PromptReceipts(Next(w, step), s, delay)
  {
    match step
    case Deliver(a, _) =>
      var w' := Next(w, step);
      forall i | 0 <= i < |Receipts(w', s)|
        ensures Receipts(w', s)[i].at - Receipts(w', s)[i].takenAt <= delay
      {
        assert i < |Receipts(w, s)| ==> Receipts(w', s)[i] == Receipts(w, s)[i];
      }
    case _ =>
      OnlyDeliveriesAreReceived(w, step);
      assert Receipts(Next(w, step), s) == Receipts(w, s);
  }

  lemma {:induction false} PromptRunsReceivePromptly(limit: Option<nat>, steps: seq<Step>, s: Slot, delay: nat)
    requires PromptRun(limit, steps, delay)
    ensures PromptReceipts(Reached(limit, steps), s, delay)
    decreases |steps|
  {
    if steps != [] {
      var before := steps[..|steps| - 1];
      assert forall i | 0 <= i < |before| :: before[..i] == steps[..i];
      PromptRunsReceivePromptly(limit, before, s, delay);
      StepKeepsPrompt(Reached(limit, before), steps[|steps| - 1], s, delay);
    }
  }

  /** The provider outlasts the channel's declared window and the delay of the last send taken in it. */
  predicate Covers(window: Option<nat>, delay: nat, memory: Option<nat>) {
    memory.None? || (window.Some? && window.value + delay <= memory.value)
  }

  /** On a channel whose window its provider covers, an action is delivered at most once, however often it is sent. */
  lemma CoveredWindowDeliversOnce(limit: Option<nat>, steps: seq<Step>, s: Slot, delay: nat, memory: Option<nat>)
    requires PromptRun(limit, steps, delay)
    requires var db := Reached(limit, steps).db; s in db.actions && Covers(db.actions[s].channel.window, delay, memory)
    ensures Delivered(Receipts(Reached(limit, steps), s), memory).0 <= 1
  {
    var w := Reached(limit, steps);
    var rs := Receipts(w, s);
    OutboxIsSound(limit, steps);
    PromptRunsReceivePromptly(limit, steps, s, delay);
    assert ReceiptsOk(w, s);
    forall i | 0 <= i < |rs| ensures Remembers(memory, rs[0].at, rs[i].at) {
      assert ReceiptOk(w, s, Receipts(w, s)[0]) && ReceiptOk(w, s, Receipts(w, s)[i]);
    }
    OneDelivery(rs, memory);
  }

  lemma PlayPrompt(limit: Option<nat>, steps: seq<Step>, step: Step, delay: nat) returns (longer: seq<Step>, w: World)
    requires PromptRun(limit, steps, delay) && Prompt(Reached(limit, steps), step, delay)
    ensures PromptRun(limit, longer, delay) && w == Reached(limit, longer) == Next(Reached(limit, steps), step)
  {
    Then(limit, steps, step);
    longer, w := steps + [step], Next(Reached(limit, steps), step);
    forall i | 0 <= i < |longer| ensures Prompt(Reached(limit, longer[..i]), longer[i], delay) {
      assert longer[..i] == steps[..i];
      assert steps[..|steps|] == steps;
    }
  }

  lemma PlayTake(steps: seq<Step>, a: Attempt, key: string, channel: Channel, delay: nat)
    returns (longer: seq<Step>, w: World)
    requires PromptRun(None, steps, delay)
    requires var w := Reached(None, steps); var s := Slot(a.run, key);
             IsIdle(w, a) && TakeTx(w.db, a, key, channel).1.Send? &&
             (s in w.db.actions ==> w.db.actions[s].channel == channel)
    ensures PromptRun(None, longer, delay) && w == Reached(None, longer)
    ensures var before := Reached(None, steps);
            w.db == TakeTx(before.db, a, key, channel).0 && w.log == before.log && w.stranded == before.stranded &&
            w.execs == before.execs[a := Exec(InSend(key, before.db.now, None), before.execs[a].seen)]
  {
    longer, w := PlayPrompt(None, steps, Take(a, key, channel), delay);
  }

  /** Time passes. */
  lemma PlayTick(steps: seq<Step>, ms: nat, delay: nat) returns (longer: seq<Step>, w: World)
    requires PromptRun(None, steps, delay)
    ensures PromptRun(None, longer, delay) && w == Reached(None, longer)
    ensures var before := Reached(None, steps); w == before.(db := before.db.(now := before.db.now + ms))
  {
    longer, w := PlayPrompt(None, steps, Tick(ms), delay);
  }

  /** A taken send travels for `lag` and is received. */
  lemma PlaySend(steps: seq<Step>, a: Attempt, lag: nat, delay: nat) returns (longer: seq<Step>, w: World)
    requires PromptRun(None, steps, delay) && lag <= delay
    requires var w := Reached(None, steps);
             a in w.execs && w.execs[a].phase.InSend? && w.execs[a].phase.sent.None? &&
             w.execs[a].phase.takenAt == w.db.now
    ensures PromptRun(None, longer, delay) && w == Reached(None, longer)
    ensures var before := Reached(None, steps);
            var s, at := Slot(a.run, before.execs[a].phase.action), before.db.now;
            w.db == before.db.(now := at + lag) && a in w.execs && w.execs.Keys == before.execs.Keys &&
            w.stranded == before.stranded &&
            w.log.receipts == before.log.receipts[s := Receipts(before, s) + [Receipt(at, at + lag)]]
  {
    longer, w := PlayTick(steps, lag, delay);
    longer, w := PlayPrompt(None, longer, Deliver(a, Some("sent")), delay);
  }

  lemma PlayCrash(steps: seq<Step>, a: Attempt, delay: nat) returns (longer: seq<Step>, w: World)
    requires PromptRun(None, steps, delay)
    ensures PromptRun(None, longer, delay) && w == Reached(None, longer)
    ensures var before := Reached(None, steps);
            w == before.(execs := before.execs - {a}, log := before.log.(hits := w.log.hits))
  {
    longer, w := PlayPrompt(None, steps, Crash(a), delay);
  }

  /** The run is running already, so the claim writes what is there. */
  lemma PlayRestart(steps: seq<Step>, a: Attempt, delay: nat) returns (longer: seq<Step>, w: World)
    requires PromptRun(None, steps, delay)
    requires var w := Reached(None, steps);
             a !in w.execs && Owns(w, a) && Fenced(w.db, a) && w.db.runs[a.run].status == Running
    ensures PromptRun(None, longer, delay) && w == Reached(None, longer)
    ensures var before := Reached(None, steps); w == before.(execs := before.execs[a := Exec(Idle, [])])
  {
    var before := Reached(None, steps);
    longer, w := PlayPrompt(None, steps, Claim(a), delay);
    assert StatusTx(before.db, a, Running).runs == before.db.runs;
  }

  /** The process dies with the send unsettled and the workflow is executed again after a while. */
  lemma PlayLostSend(steps: seq<Step>, a: Attempt, wait: nat, delay: nat) returns (longer: seq<Step>, w: World)
    requires PromptRun(None, steps, delay)
    requires var w := Reached(None, steps);
             a in w.execs && Owns(w, a) && Fenced(w.db, a) && w.db.runs[a.run].status == Running
    ensures PromptRun(None, longer, delay) && w == Reached(None, longer)
    ensures var before := Reached(None, steps);
            w.db == before.db.(now := before.db.now + wait) && w.log.receipts == before.log.receipts &&
            w.execs == before.execs[a := Exec(Idle, [])] && w.stranded == before.stranded
  {
    longer, w := PlayCrash(steps, a, delay);
    longer, w := PlayTick(longer, wait, delay);
    longer, w := PlayRestart(longer, a, delay);
  }

  lemma PlayFirstAttempt(delay: nat) returns (steps: seq<Step>, w: World)
    ensures w == Reached(None, steps) && PromptRun(None, steps, delay)
    ensures w == Init(None).(db := w.db, execs := map[Attempt("r", 1) := Exec(Idle, [])])
    ensures w.db == Init(None).db.(runs := map["r" := Run(1, "r", Running)], workflows := {"r"})
  {
    steps, w := PlayPrompt(None, [], Start("r", false), delay);
    steps, w := PlayRestart(steps, Attempt("r", 1), delay);
  }

  lemma FirstTake(channel: Channel, delay: nat) returns (steps: seq<Step>, w: World)
    ensures w == Reached(None, steps) && PromptRun(None, steps, delay)
    ensures w.execs == map[Attempt("r", 1) := Exec(InSend("k", 0, None), [])]
    ensures w.log.receipts == map[] && w.stranded == {}
    ensures w.db == Init(None).db.(runs := map["r" := Run(1, "r", Running)], workflows := {"r"},
              actions := map[Slot("r", "k") := Action("r", channel, 0, ActionStatus.Sending)])
  {
    steps, w := PlayFirstAttempt(delay);
    steps, w := PlayTake(steps, Attempt("r", 1), "k", channel, delay);
  }

  /** One send is received at once. */
  lemma SentAtOnce(channel: Channel, delay: nat) returns (steps: seq<Step>, w: World)
    ensures w == Reached(None, steps) && PromptRun(None, steps, delay)
    ensures w.execs.Keys == {Attempt("r", 1)} && w.stranded == {}
    ensures w.db.runs == map["r" := Run(1, "r", Running)] && w.db.now == 0
    ensures w.db.actions == map[Slot("r", "k") := Action("r", channel, 0, ActionStatus.Sending)]
    ensures w.log.receipts == map[Slot("r", "k") := [Receipt(0, 0)]]
  {
    steps, w := FirstTake(channel, delay);
    assert Receipts(w, Slot("r", "k")) + [Receipt(0, 0)] == [Receipt(0, 0)];
    steps, w := PlaySend(steps, Attempt("r", 1), 0, delay);
  }

  /** It is never settled, and its attempt is executed again `wait` later. */
  lemma SentOnce(channel: Channel, wait: nat, delay: nat) returns (steps: seq<Step>, w: World)
    ensures w == Reached(None, steps) && PromptRun(None, steps, delay)
    ensures w.execs == map[Attempt("r", 1) := Exec(Idle, [])] && Fenced(w.db, Attempt("r", 1)) && w.db.now == wait
    ensures w.db.actions == map[Slot("r", "k") := Action("r", channel, 0, ActionStatus.Sending)]
    ensures w.log.receipts == map[Slot("r", "k") := [Receipt(0, 0)]]
  {
    steps, w := SentAtOnce(channel, delay);
    steps, w := PlayLostSend(steps, Attempt("r", 1), wait, delay);
    assert w.execs.Keys == {Attempt("r", 1)};
  }

  /** A second send is taken as late as that, and travels for `lag`. */
  lemma SentAgainLate(channel: Channel, wait: nat, lag: nat, delay: nat) returns (steps: seq<Step>, w: World)
    requires channel.dedupes && lag <= delay && (channel.window.Some? ==> wait <= channel.window.value)
    ensures w == Reached(None, steps) && PromptRun(None, steps, delay)
    ensures var s := Slot("r", "k");
            s in w.db.actions && w.db.actions[s].channel == channel &&
            Receipts(w, s) == [Receipt(0, 0), Receipt(wait, wait + lag)]
  {
    steps, w := SentOnce(channel, wait, delay);
    steps, w := PlayTake(steps, Attempt("r", 1), "k", channel, delay);
    steps, w := PlaySend(steps, Attempt("r", 1), lag, delay);
  }

  /**
   * And only then: for every window, delay and memory that do not cover it, some prompt run
   * delivers one action twice, with no bump and no stale attempt in it.
   */
  lemma UncoveredWindowDeliversTwice(name: string, window: Option<nat>, delay: nat, memory: Option<nat>)
    returns (steps: seq<Step>, s: Slot)
    requires !Covers(window, delay, memory)
    ensures PromptRun(None, steps, delay)
    ensures var w := Reached(None, steps);
            s in w.db.actions && w.db.actions[s].channel == Channel(name, true, window) &&
            Delivered(Receipts(w, s), memory).0 == 2
  {
    var w: World;
    s := Slot("r", "k");
    if window.Some? {
      steps, w := SentAgainLate(Channel(name, true, window), window.value, delay, delay);
    } else {
      steps, w := SentAgainLate(Channel(name, true, window), memory.value + 1, 0, delay);
    }
    var rs := Receipts(w, s);
    assert rs[..1] == [Receipt(0, 0)] && rs[..1][..0] == [];
    assert Delivered(rs[..1], memory) == (1, 0);
  }
}
