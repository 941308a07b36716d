// Outbound actions over whole runs: how often one reaches its provider, and who accounts for the
// ones nobody can.
module Sends {
  import opened Wrappers
  import opened Tokens
  import opened Tables
  import opened Runs
  import opened Worlds
  import opened Fences
  import opened Actions
  import Ledger
  import Approvals

  predicate Sending(w: World, a: Attempt, s: Slot) {
    a in w.execs && w.execs[a].phase.InSend? && s == Slot(a.run, w.execs[a].phase.action)
  }

  /** Taken, and not with the provider yet. */
  predicate Unsent(w: World, a: Attempt, s: Slot) {
    Sending(w, a, s) && w.execs[a].phase.sent.None?
  }

  /** A send is taken after its row's first attempt, and inside the channel's declared window. */
  predicate Timely(db: Db, s: Slot, takenAt: nat) {
    s in db.actions && db.actions[s].startedAt <= takenAt <= db.now &&
    (db.actions[s].channel.window.Some? ==> takenAt - db.actions[s].startedAt <= db.actions[s].channel.window.value)
  }

  /** A taken row is still the current attempt's to settle. */
  predicate TakerOk(w: World, a: Attempt)
    requires a in w.execs
  {
    w.execs[a].phase.InSend? ==>
      var s := Slot(a.run, w.execs[a].phase.action);
      Timely(w.db, s, w.execs[a].phase.takenAt) &&
      (IsCurrent(w, a) ==> w.db.actions[s].status == ActionStatus.Sending && w.db.actions[s].workflow == TokenOf(a))
  }

  predicate ReceiptOk(w: World, s: Slot, r: Receipt) {
    Timely(w.db, s, r.takenAt) && r.takenAt <= r.at <= w.db.now
  }

  ghost predicate ReceiptsOk(w: World, s: Slot) {
    forall i {:trigger Receipts(w, s)[i]} | 0 <= i < |Receipts(w, s)| :: ReceiptOk(w, s, Receipts(w, s)[i])
  }

  /** On a channel that cannot dedupe there is one send: on its way, or received, or neither. */
  ghost predicate LoneSend(w: World, s: Slot) {
    s in w.db.actions && !w.db.actions[s].channel.dedupes ==>
      |Receipts(w, s)| <= 1 &&
      forall a {:trigger Unsent(w, a, s)} | Unsent(w, a, s) ::
        Receipts(w, s) == [] && forall b {:trigger Unsent(w, b, s)} | Unsent(w, b, s) :: b == a
  }

  /** A row that went uncertain has one task asking about it; any other row has none. */
  predicate ActionOk(db: Db, s: Slot) {
    (s in db.actions ==> db.actions[s].startedAt <= db.now) &&
    var flow, sweep := Task(FromFlow, s) in db.tasks, Task(FromSweep, s) in db.tasks;
    !(flow && sweep) && (flow || sweep <==> s in db.actions && db.actions[s].status == Uncertain)
  }

  ghost predicate Dispatched(w: World) {
    (forall a {:trigger TakerOk(w, a)} | a in w.execs :: TakerOk(w, a)) &&
    (forall s {:trigger ReceiptsOk(w, s)} :: ReceiptsOk(w, s)) &&
    (forall s {:trigger LoneSend(w, s)} :: LoneSend(w, s)) &&
    (forall s {:trigger ActionOk(w.db, s)} :: ActionOk(w.db, s))
  }

  /** Nothing of the outbox moved but the clock; nobody took a send on; attempts only went forward. */
  ghost predicate OutboxQuiet(w: World, w': World) {
    w'.db.actions == w.db.actions && w'.db.tasks == w.db.tasks && w'.log.receipts == w.log.receipts &&
    w.db.now <= w'.db.now &&
    (forall r | r in w.db.runs :: r in w'.db.runs && w.db.runs[r].attempt <= w'.db.runs[r].attempt) &&
    (forall a | a in w'.execs && w'.execs[a].phase.InSend? :: a in w.execs && w'.execs[a].phase == w.execs[a].phase)
  }

  lemma SameReceiptsOk(w: World, w': World, s: Slot)
    requires ReceiptsOk(w, s) && Receipts(w', s) == Receipts(w, s) && w.db.now <= w'.db.now
    requires s in w.db.actions ==>
               s in w'.db.actions && w'.db.actions[s].startedAt == w.db.actions[s].startedAt &&
               w'.db.actions[s].channel == w.db.actions[s].channel
    ensures ReceiptsOk(w', s)
  {
    forall i | 0 <= i < |Receipts(w', s)| ensures ReceiptOk(w', s, Receipts(w', s)[i]) {
      assert ReceiptOk(w, s, Receipts(w, s)[i]);
    }
  }

  lemma QuietKeepsDispatched(w: World, w': World)
    requires Tokened(w) && Dispatched(w) && OutboxQuiet(w, w')
    ensures Dispatched(w')
  {
    forall a | a in w'.execs ensures TakerOk(w', a) {
      if w'.execs[a].phase.InSend? { assert TakerOk(w, a) && ExecOk(w, a); }
    }
    forall s ensures ReceiptsOk(w', s) { assert ReceiptsOk(w, s); SameReceiptsOk(w, w', s); }
    forall s ensures LoneSend(w', s) {
      assert LoneSend(w, s);
      forall a | Unsent(w', a, s) ensures Unsent(w, a, s) {}
    }
    forall s ensures ActionOk(w'.db, s) { assert ActionOk(w.db, s); }
  }

  lemma LedgerStepsSendNothing(w: World, step: Step)
    requires step.Gate? || step.Record?
    ensures OutboxQuiet(w, Next(w, step))
  {
  }

  lemma CallStepsSendNothing(w: World, step: Step)
    requires step.Issue? || step.Return? || step.LoseRecord? || step.Crash?
    ensures OutboxQuiet(w, Next(w, step))
  {
  }

  lemma StatusStepsSendNothing(w: World, step: Step)
    requires step.Claim? || step.Conclude? || step.MarkEnded?
    ensures OutboxQuiet(w, Next(w, step))
  {
  }

  lemma GateStepsSendNothing(w: World, step: Step)
    requires step.Ask? || step.Suspend?
    ensures OutboxQuiet(w, Next(w, step))
  {
  }

  lemma BumpSendsNothing(w: World, runs: set<string>)
    ensures OutboxQuiet(w, Bumped(w, runs))
  {
  }

  lemma DecideSendsNothing(w: World, q: Approvals.DecideRequest, scouted: set<string>)
    ensures OutboxQuiet(w, DecideStep(w, q, scouted))
  {
  }

  lemma ControlStepsSendNothing(w: World, step: Step)
    requires step.Start? || step.Bump? || step.Decide? || step.Tick? || step.SetPaused? || step.SetBudget?
    ensures OutboxQuiet(w, Next(w, step))
  {
    match step
    case Bump(run) => BumpSendsNothing(w, {run});
    case Decide(q, scouted) => DecideSendsNothing(w, q, scouted);
    case _ =>
  }

  lemma OtherStepsSendNothing(w: World, step: Step)
    requires !step.Take? && !step.Deliver? && !step.Settle? && !step.Hygiene?
    ensures OutboxQuiet(w, Next(w, step))
  {
    if step.Gate? || step.Record? {
      LedgerStepsSendNothing(w, step);
    } else if step.Issue? || step.Return? || step.LoseRecord? || step.Crash? {
      CallStepsSendNothing(w, step);
    } else if step.Claim? || step.Conclude? || step.MarkEnded? {
      StatusStepsSendNothing(w, step);
    } else if step.Ask? || step.Suspend? {
      GateStepsSendNothing(w, step);
    } else {
      ControlStepsSendNothing(w, step);
    }
  }

  /** A take keeps or refuses the row; what it refuses for good it opens the one task for. */
  lemma TakeKeepsAction(db: Db, a: Attempt, key: string, channel: Channel, t: Slot)
    requires ActionOk(db, t)
    ensures ActionOk(TakeTx(db, a, key, channel).0, t)
  {
  }

  lemma TakeKeepsTaker(w: World, a: Attempt, key: string, channel: Channel, b: Attempt)
    requires Tokened(w) && IsIdle(w, a) && b in w.execs && TakerOk(w, b) && ActionOk(w.db, Slot(a.run, key))
    ensures TakerOk(TakeStep(w, a, key, channel), b)
  {
    FenceIsCurrency(w, a);
    if b != a && IsCurrent(w, b) && IsCurrent(w, a) { assert b.run != a.run; }
  }

  lemma TakeKeepsDispatched(w: World, a: Attempt, key: string, channel: Channel)
    requires Tokened(w) && Dispatched(w)
    ensures Dispatched(TakeStep(w, a, key, channel))
  {
    var w' := TakeStep(w, a, key, channel);
    if IsIdle(w, a) {
      forall b | b in w'.execs ensures TakerOk(w', b) {
        assert TakerOk(w, b) && ActionOk(w.db, Slot(a.run, key));
        TakeKeepsTaker(w, a, key, channel, b);
      }
      forall t ensures ReceiptsOk(w', t) { assert ReceiptsOk(w, t); SameReceiptsOk(w, w', t); }
      forall t ensures LoneSend(w', t) { TakeKeepsLoneSend(w, a, key, channel, t); }
      forall t ensures ActionOk(w'.db, t) { assert ActionOk(w.db, t); TakeKeepsAction(w.db, a, key, channel, t); }
    }
  }

  lemma ReceiptNeedsRow(w: World, s: Slot)
    requires ReceiptsOk(w, s) && Receipts(w, s) != []
    ensures s in w.db.actions
  {
    assert ReceiptOk(w, s, Receipts(w, s)[0]);
  }

  lemma NothingSentUntaken(w: World, s: Slot)
    requires Dispatched(w) && s !in w.db.actions
    ensures Receipts(w, s) == [] && forall a {:trigger Unsent(w, a, s)} :: !Unsent(w, a, s)
  {
    assert ReceiptsOk(w, s);
    if Receipts(w, s) != [] { ReceiptNeedsRow(w, s); }
    forall a ensures !Unsent(w, a, s) { assert a in w.execs ==> TakerOk(w, a); }
  }

  lemma TakeLeavesOthersLone(w: World, a: Attempt, key: string, channel: Channel, t: Slot)
    requires LoneSend(w, t) && IsIdle(w, a) && t != Slot(a.run, key)
    ensures LoneSend(TakeStep(w, a, key, channel), t)
  {
    forall b | Unsent(TakeStep(w, a, key, channel), b, t) ensures Unsent(w, b, t) {}
  }

  lemma TakeKeepsLoneSend(w: World, a: Attempt, key: string, channel: Channel, t: Slot)
    requires Dispatched(w) && IsIdle(w, a)
    ensures LoneSend(TakeStep(w, a, key, channel), t)
  {
    assert LoneSend(w, t);
    if t != Slot(a.run, key) { TakeLeavesOthersLone(w, a, key, channel, t); return; }
    forall b | Unsent(TakeStep(w, a, key, channel), b, t) && b != a ensures Unsent(w, b, t) {}
    if t !in w.db.actions { NothingSentUntaken(w, t); }
  }

  lemma DeliverKeepsDispatched(w: World, a: Attempt, result: Option<string>)
    requires Dispatched(w)
    ensures Dispatched(DeliverStep(w, a, result))
  {
    var w' := DeliverStep(w, a, result);
    if w' != w {
      var s := Slot(a.run, w.execs[a].phase.action);
      assert TakerOk(w, a) && Unsent(w, a, s);
      forall b | b in w'.execs ensures TakerOk(w', b) { assert TakerOk(w, b); }
      forall t ensures ReceiptsOk(w', t) {
        assert ReceiptsOk(w, t);
        forall i | 0 <= i < |Receipts(w', t)| ensures ReceiptOk(w', t, Receipts(w', t)[i]) {
          if i < |Receipts(w, t)| { assert Receipts(w, t)[i] == Receipts(w', t)[i]; }
        }
      }
      forall t ensures LoneSend(w', t) {
        assert LoneSend(w, t);
        forall b | Unsent(w', b, t) ensures Unsent(w, b, t) && b != a {}
      }
      forall t ensures ActionOk(w'.db, t) { assert ActionOk(w.db, t); }
    }
  }

  /** A settled row was the current attempt's, and nobody had given up on it. */
  lemma SettleKeepsDispatched(w: World, a: Attempt)
    requires Tokened(w) && Dispatched(w)
    ensures Dispatched(SettleStep(w, a))
  {
    var w' := SettleStep(w, a);
    FenceIsCurrency(w, a);
    if w' != w {
      assert TakerOk(w, a);
      forall b | b in w'.execs ensures TakerOk(w', b) {
        assert TakerOk(w, b);
        if b != a && IsCurrent(w, b) { assert Fenced(w.db, a) ==> b.run != a.run; }
      }
      forall t ensures ReceiptsOk(w', t) { assert ReceiptsOk(w, t); SameReceiptsOk(w, w', t); }
      forall t ensures LoneSend(w', t) {
        assert LoneSend(w, t);
        forall b | Unsent(w', b, t) ensures Unsent(w, b, t) {}
      }
      forall t ensures ActionOk(w'.db, t) { assert ActionOk(w.db, t); }
    }
  }

  /** The sweep never takes a row from the attempt that is sending it. */
  lemma SweepKeepsDispatched(w: World)
    requires Tokened(w) && Dispatched(w)
    ensures Dispatched(Next(w, Hygiene))
  {
    var w' := Next(w, Hygiene);
    forall a | a in w'.execs ensures TakerOk(w', a) {
      assert TakerOk(w, a) && ExecOk(w, a);
      FenceIsCurrency(w, a);
    }
    forall t ensures ReceiptsOk(w', t) { assert ReceiptsOk(w, t); SameReceiptsOk(w, w', t); }
    forall t ensures LoneSend(w', t) {
      assert LoneSend(w, t);
      forall b | Unsent(w', b, t) ensures Unsent(w, b, t) {}
    }
    forall t ensures ActionOk(w'.db, t) { assert ActionOk(w.db, t); }
  }

  lemma OtherStepsKeepDispatched(w: World, step: Step)
    requires Tokened(w) && Dispatched(w) && !step.Take? && !step.Deliver? && !step.Settle? && !step.Hygiene?
    ensures Dispatched(Next(w, step))
  {
    OtherStepsSendNothing(w, step);
    QuietKeepsDispatched(w, Next(w, step));
  }

  lemma SendStepsKeepDispatched(w: World, step: Step)
    requires Tokened(w) && Dispatched(w) && (step.Take? || step.Deliver? || step.Settle?)
    ensures Dispatched(Next(w, step))
  {
    match step
    case Take(a, key, channel) => TakeKeepsDispatched(w, a, key, channel);
    case Deliver(a, result) => DeliverKeepsDispatched(w, a, result);
    case Settle(a) => SettleKeepsDispatched(w, a);
  }

  lemma StepKeepsDispatched(w: World, step: Step)
    requires Tokened(w) && Dispatched(w)
    ensures Dispatched(Next(w, step))
  {
    match step
    case Take(_, _, _) => SendStepsKeepDispatched(w, step);
    case Deliver(_, _) => SendStepsKeepDispatched(w, step);
    case Settle(_) => SendStepsKeepDispatched(w, step);
    case Hygiene => SweepKeepsDispatched(w);
    case _ => OtherStepsKeepDispatched(w, step);
  }

  lemma {:induction false} OutboxIsSound(limit: Option<nat>, steps: seq<Step>)
    ensures Dispatched(Reached(limit, steps))
    decreases |steps|
  {
    var w := Reached(limit, steps);
    if steps == [] {
      forall s ensures ReceiptsOk(w, s) && LoneSend(w, s) && ActionOk(w.db, s) {}
    } else {
      OutboxIsSound(limit, steps[..|steps| - 1]);
      RunsAreTokened(limit, steps[..|steps| - 1]);
      StepKeepsDispatched(Reached(limit, steps[..|steps| - 1]), steps[|steps| - 1]);
    }
  }
}
