// The control-plane database as the packages' own code drives it: each transaction statement by
// statement on mutable tables, proved to commit what the run model says it commits. A transaction
// that throws puts back what it had written.
module Databases {
  import opened Wrappers
  import opened IdOrder
  import opened Tokens
  import opened Tables
  import opened Runs
  import opened Ledger
  import opened Approvals
  import opened Actions
  import opened Sums
  import Books
  import Fences

  class Database {
    var runs: map<string, Run>
    var workflows: set<string>
    var budgets: map<string, Budget>
    var calls: map<Slot, Call>
    var approvals: map<nat, Approval>
    var gates: map<Slot, nat>
    var actions: map<Slot, Action>
    var tasks: set<Task>
    var paused: bool
    const defaultLimit: Option<nat>
    var now: nat

    ghost function View(): Db
      reads this
    {
      Db(runs, workflows, budgets, calls, approvals, gates, actions, tasks, paused, defaultLimit, now)
    }

    constructor (defaultLimit: Option<nat>)
      ensures View() == Db(map[], {}, map[], map[], map[], map[], map[], {}, false, defaultLimit, 0)
    {
      this.defaultLimit := defaultLimit;
      runs, workflows, budgets, calls := map[], {}, map[], map[];
      approvals, gates, actions, tasks := map[], map[], map[], {};
      paused, now := false, 0;
    }

    /** `FENCE_STATEMENT`: the first statement of every step transaction. */
    predicate Fence(a: Attempt)
      reads this
      ensures Fence(a) == Fenced(View(), a)
    {
      a.run in runs && runs[a.run].current == TokenOf(a)
    }

    /** The join both sweeps put to a row's workflow. */
    predicate IsOver(run: string, workflow: string)
      reads this
      ensures IsOver(run, workflow) == Over(View(), run, workflow)
    {
      run in runs && (runs[run].status in {Done, Failed, Waiting, Paused} || workflow != runs[run].current)
    }

    // ----- runs -----

    /** `runs.start`: false when the row is there already, or its workflow under another flow's name. */
    method Start(run: string, sameFlow: bool) returns (started: bool)
      modifies `runs, `workflows
      ensures View() == StartTx(old(View()), run, sameFlow)
      ensures started <==> run !in old(runs) && (run in old(workflows) ==> sameFlow)
      ensures runs == if started then old(runs)[run := Run(1, run, Running)] else old(runs)
      ensures workflows == if started then old(workflows) + {run} else old(workflows)
    {
      if run in runs { return false; }
      var begun := runs;
      var token := AttemptToken(run, 1);
      runs := runs[run := Run(1, token, Running)];
      if token in workflows {
        if !sameFlow { runs := begun; return false; }
        assert workflows == workflows + {token};
        return true;
      }
      workflows := workflows + {token};
      return true;
    }

    /** `claimRun` and `concludeRun`: whether the fenced update matched. It moves no token, so nobody's fence. */
    method WriteStatus(a: Attempt, status: RunStatus) returns (written: bool)
      modifies `runs
      ensures View() == StatusTx(old(View()), a, status)
      ensures a.run in old(runs) && Fences.TokenOk(old(View()), a.run) ==> (written <==> old(runs)[a.run].attempt == a.n)
      ensures written ==> a.run in old(runs)
      ensures runs == if written then old(runs)[a.run := Run(old(runs)[a.run].attempt, old(runs)[a.run].current, status)]
                      else old(runs)
      ensures forall b :: Fenced(View(), b) <==> Fenced(old(View()), b)
    {
      if a.run in runs && Fences.TokenOk(View(), a.run) { TokenNamesAttempt(a.run, a.n, runs[a.run].attempt); }
      if !Fence(a) { return false; }
      runs := runs[a.run := runs[a.run].(status := status)];
      return true;
    }

    /**
     * `bumpAttempt` and its enqueue. The compare-and-set is against the attempt the locked read
     * returned, so it always matches; what can be refused is the id, and then the caller rolls back.
     */
    method BumpAndEnqueue(run: string) returns (token: Option<string>)
      modifies `runs, `workflows
      ensures token.Some? <==> CanBump(old(View()), {run})
      ensures token.Some? ==> View() == Moved(old(View()), {run}) && token == Some(NextToken(old(View()), run))
      ensures token.Some? <==> run in old(runs) && AttemptToken(run, old(runs)[run].attempt + 1) !in old(workflows)
      ensures token.Some? ==>
                token.value == AttemptToken(run, old(runs)[run].attempt + 1) &&
                runs == old(runs)[run := Run(old(runs)[run].attempt + 1, token.value, Running)] &&
                workflows == old(workflows) + {token.value}
    {
      if run !in runs { return None; }
      var previous := runs[run].attempt;
      var attempt := previous + 1;
      var workflow := AttemptToken(run, attempt);
      if runs[run].attempt != previous {
        assert false;  // ConcurrentBump
      }
      ghost var before := View();
      runs := runs[run := Run(attempt, workflow, Running)];
      if workflow in workflows {
        assert NextToken(before, run) in before.workflows;
        return None;
      }
      workflows := workflows + {workflow};
      assert (set r | r in {run} && r in before.runs :: NextToken(before, r)) == {workflow};
      assert View().runs == Moved(before, {run}).runs;
      return Some(workflow);
    }

    // ----- the call ledger -----

    /** The gate's SUM: every live reservation of the period but the row's own. */
    method SumReserved(period: string, own: Slot) returns (amount: int)
      ensures amount == ReservedBeside(View(), period, own)
      ensures amount == Sum((set s | s in calls && s != own && calls[s].status == Started && calls[s].period == period &&
                              s.run in runs && runs[s.run].current == calls[s].workflow && runs[s.run].status == Running),
                            Estimates(calls))
    {
      ReservationIsTheSum(View(), period, own);
      amount := 0;
      var rows := calls.Keys - {own};
      while rows != {}
        invariant rows <= calls.Keys - {own}
        invariant amount + Sum(rows, Hold(View(), period)) == ReservedBeside(View(), period, own)
        decreases rows
      {
        var s :| s in rows;
        Split(rows, Hold(View(), period), s);
        var row := calls[s];
        if row.status == Started && row.period == period && s.run in runs
           && row.workflow == runs[s.run].current && runs[s.run].status == Running {
          amount := amount + row.estimate;
        }
        rows := rows - {s};
      }
    }

    /** The gate's statements, in their order. */
    method GateStatements(a: Attempt, c: CallRequest, period: string) returns (outcome: GateOutcome)
      modifies `budgets, `calls
      ensures outcome == GateAnswer(old(View()), a, c, period)
      ensures View() == GateTx(old(View()), a, c, period, outcome)
    {
      hide ReservedBeside;
      hide Estimates;
      var s := Slot(a.run, c.key);
      var begunBudgets, begunCalls := budgets, calls;
      if !Fence(a) { return GateOutcome.Stale; }
      if paused { return AppPaused; }
      if period !in budgets && defaultLimit.Some? {
        budgets := budgets[period := Budget(defaultLimit.value, 0)];
      }
      if period !in budgets { return NotBootstrapped; }
      var inserted := s !in calls;
      if inserted {
        calls := calls[s := Call(TokenOf(a), period, c.inputHash, c.estimate, Started, false)];
      }
      var row := calls[s];
      if row.inputHash != c.inputHash {
        budgets, calls := begunBudgets, begunCalls;
        return KeyCollision;
      }
      if row.status.Ok? { return Cached(row.status.text); }
      if row.status.Error? { return StoredError(row.status.name, row.status.message); }
      var reserved := SumReserved(period, s);
      OwnRowAside(old(View()), View(), period, s);
      if budgets[period].spent + reserved + c.estimate > budgets[period].limit {
        budgets, calls := begunBudgets, begunCalls;
        return BudgetExceeded;
      }
      if !inserted {
        calls := calls[s := row.(status := Started, workflow := TokenOf(a), period := period, doubled := true)];
      }
      return GateOutcome.Reserved;
    }

    /**
     * `openGate`. A stale attempt, a paused app and an app without a budget are refused before the row
     * is looked at; a settled row answers for itself; any other is let through if the budget has room.
     */
    method OpenGate(a: Attempt, c: CallRequest, period: string) returns (outcome: GateOutcome)
      modifies `budgets, `calls
      ensures outcome == GateAnswer(old(View()), a, c, period)
      ensures View() == GateTx(old(View()), a, c, period, outcome)
      ensures outcome.Stale? <==> !Fence(a)
      ensures outcome == AppPaused <==> Fence(a) && paused
      ensures outcome == NotBootstrapped <==> Fence(a) && !paused && period !in old(budgets) && defaultLimit.None?
      ensures outcome in {GateOutcome.Stale, AppPaused, NotBootstrapped} ==> budgets == old(budgets) && calls == old(calls)
      ensures outcome !in {GateOutcome.Stale, AppPaused, NotBootstrapped} ==>
                var s, calls0 := Slot(a.run, c.key), old(calls);
                (outcome == KeyCollision <==> s in calls0 && calls0[s].inputHash != c.inputHash) &&
                (outcome.Cached? <==> s in calls0 && calls0[s].inputHash == c.inputHash && calls0[s].status.Ok?) &&
                (outcome.StoredError? <==> s in calls0 && calls0[s].inputHash == c.inputHash && calls0[s].status.Error?) &&
                (outcome.Cached? ==> outcome.text == calls0[s].status.text) &&
                (outcome.StoredError? ==> outcome.name == calls0[s].status.name && outcome.message == calls0[s].status.message)
      ensures outcome in {BudgetExceeded, GateOutcome.Reserved} ==>
                (period in old(budgets) || defaultLimit.Some?) &&
                var budget := if period in old(budgets) then old(budgets)[period] else Budget(defaultLimit.value, 0);
                var s, calls0 := Slot(a.run, c.key), old(calls);
                var reserved := Sum((set t | t in calls0 && t != s && calls0[t].status == Started && calls0[t].period == period &&
                                      t.run in runs && runs[t.run].current == calls0[t].workflow && runs[t.run].status == Running),
                                    Estimates(calls0));
                outcome == BudgetExceeded <==> budget.spent + reserved + c.estimate > budget.limit
      ensures outcome == GateOutcome.Reserved ==>
                var s, calls0, token := Slot(a.run, c.key), old(calls), AttemptToken(a.run, a.n);
                calls == calls0[s := if s in calls0
                                     then calls0[s].(status := Started, workflow := token, period := period, doubled := true)
                                     else Call(token, period, c.inputHash, c.estimate, Started, false)]
      ensures outcome != GateOutcome.Reserved ==> calls == old(calls)
      ensures (outcome == GateOutcome.Reserved || outcome.Cached? || outcome.StoredError?) ==>
                period in budgets && budgets == old(budgets)[period := budgets[period]] &&
                if period in old(budgets) then budgets == old(budgets)
                else defaultLimit.Some? && budgets[period] == Budget(defaultLimit.value, 0)
      ensures outcome in {KeyCollision, BudgetExceeded} ==> budgets == old(budgets)
    {
      GateAnswersByColumns(View(), a, c, period);
      GateWritesByColumns(View(), a, c, period);
      outcome := GateStatements(a, c, period);
    }

    /**
     * `complete`: the budget row before the ledger row. False is `StaleAttempt`. Whoever asks for
     * the call again is told its text, and the books drift by no more than the row had cost before.
     */
    method Complete(a: Attempt, key: string, period: string, text: string, cost: nat) returns (recorded: bool)
      modifies `budgets, `calls
      ensures View() == CompleteTx(old(View()), a, key, period, text, cost)
      ensures recorded <==> Fenced(old(View()), a)
      ensures recorded ==> forall b: Attempt, c: CallRequest, p | b.run == a.run && c.key == key && AsksAgain(View(), b, c, p) ::
                GateAnswer(View(), b, c, p) == Cached(text)
      ensures recorded && period in old(budgets) && Slot(a.run, key) in old(calls) &&
              old(calls)[Slot(a.run, key)].period == period ==>
                forall p :: Books.Drift(View(), p) == Books.Drift(old(View()), p) + Books.Settlement(old(View()), Slot(a.run, key), p)
      ensures var s := Slot(a.run, key);
              calls == if recorded && s in old(calls) then old(calls)[s := old(calls)[s].(status := Ok(text, cost))] else old(calls)
      ensures budgets == if recorded && period in old(budgets)
                         then old(budgets)[period := Budget(old(budgets)[period].limit, old(budgets)[period].spent + cost)]
                         else old(budgets)
    {
      if !Fence(a) { return false; }
      ghost var before := View();
      if period in budgets {
        budgets := budgets[period := budgets[period].(spent := budgets[period].spent + cost)];
      }
      var s := Slot(a.run, key);
      if s in calls { calls := calls[s := calls[s].(status := Ok(text, cost))]; }
      if period in before.budgets && s in before.calls && before.calls[s].period == period {
        forall p ensures Books.Drift(View(), p) == Books.Drift(before, p) + Books.Settlement(before, s, p) {
          Books.CompleteDrifts(before, a, key, period, text, cost, p);
        }
      }
      return true;
    }

    /** `recordProviderError`: whoever asks for the call again is told the error, and no counter moves. */
    method RecordProviderError(a: Attempt, key: string, name: string, message: string) returns (recorded: bool)
      modifies `calls
      ensures View() == ErrorTx(old(View()), a, key, name, message)
      ensures recorded <==> Fenced(old(View()), a)
      ensures recorded ==> forall b: Attempt, c: CallRequest, p | b.run == a.run && c.key == key && AsksAgain(View(), b, c, p) ::
                GateAnswer(View(), b, c, p) == StoredError(name, message)
      ensures recorded && Slot(a.run, key) in old(calls) ==>
                forall p :: Books.Drift(View(), p) == Books.Drift(old(View()), p) + Books.Settlement(old(View()), Slot(a.run, key), p)
      ensures var s := Slot(a.run, key);
              calls == if recorded && s in old(calls) then old(calls)[s := old(calls)[s].(status := Error(name, message))]
                       else old(calls)
    {
      if !Fence(a) { return false; }
      ghost var before := View();
      var s := Slot(a.run, key);
      if s in calls {
        calls := calls[s := calls[s].(status := Error(name, message))];
        forall p ensures Books.Drift(View(), p) == Books.Drift(before, p) + Books.Settlement(before, s, p) {
          Books.ErrorDrifts(before, a, key, name, message, p);
        }
      }
      return true;
    }

    /** `setBudget`: what the period's limit was and what it has spent, or `UnknownBudgetPeriod`. */
    method SetBudget(period: string, limit: nat) returns (before: Option<Budget>)
      modifies `budgets
      ensures View() == SetBudgetTx(old(View()), period, limit)
      ensures before == if period in old(budgets) then Some(old(budgets)[period]) else None
      ensures budgets == if before.Some? then old(budgets)[period := Budget(limit, before.value.spent)] else old(budgets)
      ensures Books.Drift(View(), period) == Books.Drift(old(View()), period)
    {
      Books.SameRowsSameDrift(View(), SetBudgetTx(View(), period, limit), period);
      if period !in budgets { return None; }
      before := Some(budgets[period]);
      budgets := budgets[period := budgets[period].(limit := limit)];
    }

    // ----- sends -----

    /**
     * The first transaction of `perform`: a new row is taken, a sent one answers for itself, one that
     * was given up on stays so; any other is taken again by a channel that dedupes, inside its window,
     * and asked about otherwise.
     */
    method TakeAction(a: Attempt, key: string, channel: Channel) returns (outcome: TakeOutcome)
      modifies `actions, `tasks
      ensures (View(), outcome) == TakeTx(old(View()), a, key, channel)
      ensures outcome.Stale? <==> !Fence(a)
      ensures !outcome.Stale? ==>
                var s, actions0 := Slot(a.run, key), old(actions);
                (outcome.AlreadySent? <==> s in actions0 && actions0[s].status.Sent?) &&
                (outcome.AlreadySent? ==> outcome.result == actions0[s].status.result) &&
                (outcome == AskedBefore <==> s in actions0 && actions0[s].status == Uncertain) &&
                (outcome == Send <==>
                   s !in actions0 ||
                   (actions0[s].status in {ActionStatus.Sending, SendFailed} && channel.dedupes &&
                    (channel.window.None? || now - actions0[s].startedAt <= channel.window.value)))
      ensures outcome.Stale? || outcome.AlreadySent? || outcome == AskedBefore ==> actions == old(actions)
      ensures outcome == Send ==>
                var s, actions0, token := Slot(a.run, key), old(actions), AttemptToken(a.run, a.n);
                actions == actions0[s := if s in actions0 then actions0[s].(status := ActionStatus.Sending, workflow := token)
                                         else Action(token, channel, now, ActionStatus.Sending)]
      ensures outcome == AskedNow ==>
                var s, actions0 := Slot(a.run, key), old(actions);
                s in actions0 && actions == actions0[s := actions0[s].(status := Uncertain)] &&
                tasks == old(tasks) + {Task(FromFlow, s)}
      ensures outcome != AskedNow ==> tasks == old(tasks)
    {
      if !Fence(a) { return TakeOutcome.Stale; }
      var s := Slot(a.run, key);
      var inserted := s !in actions;
      if inserted { actions := actions[s := Action(TokenOf(a), channel, now, ActionStatus.Sending)]; }
      var row := actions[s];
      if row.status.Sent? { return AlreadySent(row.status.result); }
      if row.status == Uncertain { return AskedBefore; }
      if !inserted {
        if channel.dedupes && WithinWindow(channel, row, now) {
          actions := actions[s := row.(status := ActionStatus.Sending, workflow := TokenOf(a))];
          return Send;
        }
        actions := actions[s := row.(status := Uncertain)];
        tasks := tasks + {Task(FromFlow, s)};
        return AskedNow;
      }
      return Send;
    }

    /**
     * The transaction after the send. Whoever takes the action again is told what it sent; one that
     * failed is sent again inside the window of a channel that dedupes, and asked about otherwise.
     */
    method SettleAction(a: Attempt, key: string, result: Option<string>) returns (recorded: bool)
      modifies `actions
      ensures View() == SettleTx(old(View()), a, key, result)
      ensures recorded <==> Fenced(old(View()), a)
      ensures recorded && Slot(a.run, key) in old(actions) ==>
                forall b: Attempt, channel | b.run == a.run && Fenced(View(), b) ::
                  TakeTx(View(), b, key, channel).1 ==
                    if result.Some? then AlreadySent(result.value)
                    else if channel.dedupes && WithinWindow(channel, old(actions)[Slot(a.run, key)], now) then Send else AskedNow
      ensures var s := Slot(a.run, key);
              actions == if recorded && s in old(actions)
                         then old(actions)[s := old(actions)[s].(status := if result.Some? then Sent(result.value) else SendFailed)]
                         else old(actions)
    {
      if !Fence(a) { return false; }
      var s := Slot(a.run, key);
      if s in actions {
        actions := actions[s := actions[s].(status := if result.Some? then Sent(result.value) else SendFailed)];
      }
      return true;
    }

    /** `ABANDON_LLM_CALLS_STATEMENT`. */
    method AbandonCalls()
      modifies `calls
      ensures View() == AbandonTx(old(View()))
    {
      ghost var after := AbandonTx(View());
      calls := map s | s in calls ::
        if calls[s].status == Started && IsOver(s.run, calls[s].workflow) then calls[s].(status := Abandoned) else calls[s];
      assert calls == after.calls;
    }

    /**
     * `UNCERTAIN_ACTIONS_STATEMENT`, and the rows it returned: they are the rows it made uncertain,
     * and nothing is left for a second pass. A row its run's current workflow has in hand is not one.
     */
    method MarkUncertain() returns (moved: set<Slot>)
      modifies `actions
      ensures moved == AllUnaccounted(old(View())) && actions == SweepTx(old(View())).actions
      ensures AllUnaccounted(View()) == {}
      ensures moved == set s | s in actions && actions[s] != old(actions)[s]
      ensures moved == set s | s in old(actions) && old(actions)[s].status in {ActionStatus.Sending, SendFailed} &&
                                s.run in runs && (runs[s.run].status != Running || runs[s.run].current != old(actions)[s].workflow)
      ensures actions == map s | s in old(actions) ::
                if s in moved then old(actions)[s].(status := Uncertain) else old(actions)[s]
    {
      moved := set s | s in actions && actions[s].status in {ActionStatus.Sending, SendFailed} && IsOver(s.run, actions[s].workflow);
      actions := map s | s in actions :: if s in moved then actions[s].(status := Uncertain) else actions[s];
    }

    /** A task for every row the sweep moved. */
    method OpenTasks(moved: set<Slot>)
      modifies `tasks
      ensures tasks == old(tasks) + SweepTasks(moved)
    {
      var rest := moved;
      while rest != {}
        invariant rest <= moved
        invariant tasks == old(tasks) + SweepTasks(moved - rest)
        decreases rest
      {
        var s :| s in rest;
        tasks := tasks + {Task(FromSweep, s)};
        assert SweepTasks(moved - rest) + {Task(FromSweep, s)} == SweepTasks(moved - (rest - {s}));
        rest := rest - {s};
      }
      assert moved - rest == moved;
    }

    /** The hygiene transaction. */
    method Sweep()
      modifies `calls, `actions, `tasks
      ensures View() == SweepTx(AbandonTx(old(View())))
      ensures tasks == old(tasks) + set s | s in actions && actions[s] != old(actions)[s] :: Task(FromSweep, s)
    {
      AbandonCalls();
      var moved := MarkUncertain();
      OpenTasks(moved);
    }

    // ----- approvals -----

    /** `createOrRead`: insert unless the gate has its row, then read the row back. */
    method CreateOrRead(a: Attempt, key: string, draft: string, assignee: Option<string>, id: nat)
      returns (row: Option<nat>)
      requires id !in approvals  // the column's own sequence
      modifies `approvals, `gates
      ensures (View(), row) == AskTx(old(View()), a, key, draft, assignee, id)
      ensures row.Some? <==> Fence(a)
      ensures row.Some? ==>
                var s := Slot(a.run, key);
                s in gates && gates[s] == row.value &&
                if s in old(gates) then gates == old(gates) && approvals == old(approvals)
                else gates == old(gates)[s := id] && approvals == old(approvals)[id := Approval(s, assignee, draft, None, None)]
      ensures row.None? ==> gates == old(gates) && approvals == old(approvals)
    {
      if !Fence(a) { return None; }
      var s := Slot(a.run, key);
      if s !in gates {
        approvals := approvals[id := Approval(s, assignee, draft, None, None)];
        gates := gates[s := id];
      }
      return Some(gates[s]);
    }

    /** The rows of the batch that exist, in id order, as `LOCK_APPROVALS_STATEMENT` returns them. */
    method LockApprovals(ids: set<nat>) returns (rows: seq<nat>)
      ensures forall i :: i in rows <==> i in Locked(View(), ids)
      ensures Ascending(rows)
    {
      rows := [];
      var rest := set i | i in ids && i in approvals;
      while rest != {}
        invariant rest <= Locked(View(), ids) && Ascending(rows)
        invariant forall i :: i in Locked(View(), ids) <==> i in rows || i in rest
        invariant forall i, j | i in rows && j in rest :: i < j
        decreases rest
      {
        var least := First(rest);
        forall k | 0 <= k < |rows| ensures rows[k] < least { assert rows[k] in rows; }
        rows := rows + [least];
        rest := rest - {least};
      }
    }

    /** How many of the rows carry the decision key already. */
    method CountCarrying(rows: seq<nat>, key: string) returns (n: nat)
      requires forall i | i in rows :: i in approvals
      ensures n <= |rows|
      ensures n == 0 <==> forall i | i in rows :: !CarriesKey(approvals[i], key)
      ensures n == |rows| <==> forall i | i in rows :: CarriesKey(approvals[i], key)
    {
      n := 0;
      for k := 0 to |rows|
        invariant n <= k
        invariant n == 0 <==> forall i | i in rows[..k] :: !CarriesKey(approvals[i], key)
        invariant n == k <==> forall i | i in rows[..k] :: CarriesKey(approvals[i], key)
      {
        assert rows[..k + 1] == rows[..k] + [rows[k]];
        if CarriesKey(approvals[rows[k]], key) { n := n + 1; }
      }
      assert rows[..|rows|] == rows;
    }

    /** `assertDecidable`: every reason, gathered before anything is written. */
    method Refusals(rows: seq<nat>, q: DecideRequest) returns (reasons: nat)
      requires forall i :: i in rows <==> i in Locked(View(), q.ids)
      ensures reasons == 0 <==> Decidable(View(), q)
      ensures reasons == 0 <==> forall i | i in q.ids ::
                i in approvals && approvals[i].decision.None? &&
                (q.via in {Via.Archive, Via.Sweep} || approvals[i].assignee.None? || approvals[i].assignee == q.user || q.admin) &&
                (i in q.edits ==> q.edits[i].Parsed?)
    {
      reasons := |q.ids - set i | i in rows|;
      var missing := reasons;
      assert missing == 0 <==> forall i | i in q.ids :: i in approvals by {
        assert missing == 0 <==> q.ids - (set i | i in rows) == {};
        assert forall i | i in q.ids :: i in approvals <==> i !in q.ids - (set i | i in rows);
      }
      forall i | i in rows ensures i in approvals { assert i in Locked(View(), q.ids); }
      for k := 0 to |rows|
        invariant missing <= reasons
        invariant reasons == missing <==> forall i | i in rows[..k] :: i in approvals && Acceptable(approvals[i], i, q)
      {
        assert rows[..k + 1] == rows[..k] + [rows[k]] && rows[k] in rows;
        var row := approvals[rows[k]];
        if !row.Pending() { reasons := reasons + 1; }
        if !MayDecide(row, q) { reasons := reasons + 1; }
        if !EditFits(q, rows[k]) { reasons := reasons + 1; }
      }
      assert rows[..|rows|] == rows;
      assert forall i | i in q.ids && i in approvals :: i in rows;
      DecidableByColumns(View(), q);
    }

    /** `replayed`: the decided rows and their runs as they stand, and the batch id of the first row. */
    method ReadBack(rows: seq<nat>, scouted: set<string>, ghost locked: set<nat>)
      returns (answers: set<DecidedApproval>, batch: Option<string>, reattempted: set<Reattempt>)
      requires Ascending(rows) && locked <= approvals.Keys && forall i :: i in rows <==> i in locked
      ensures answers == AnswersOf(View(), locked) && batch == BatchRead(View(), locked)
      ensures reattempted == Reattempts(View(), scouted)
    {
      reattempted := set r | r in scouted && r in runs :: Reattempt(r, runs[r].attempt, runs[r].current);
      answers := set i | i in rows && i in approvals && approvals[i].decision.Some? ::
        DecidedApproval(i, approvals[i].slot, approvals[i].decision.value.verdict, approvals[i].decision.value.resume);
      forall x ensures x in answers <==> x in AnswersOf(View(), locked) {
        if x in AnswersOf(View(), locked) {
          var i :| i in locked && i in approvals && approvals[i].decision.Some? && x == AnswerOf(View(), i);
          assert i in rows;
        }
      }
      if |rows| == 0 { return answers, None, reattempted; }
      assert rows[0] in locked;
      assert rows[0] == Least(locked) by {
        var least := Least(locked);
        assert least in rows;
      }
      batch := if approvals[rows[0]].decision.Some? then approvals[rows[0]].decision.value.batch else None;
    }

    /** The decision's own update of every row; the attempt that carries it on is not known yet. */
    method WriteRows(rows: seq<nat>, q: DecideRequest)
      requires Ascending(rows) && forall i :: i in rows <==> i in q.ids && i in approvals
      requires forall i | i in rows :: approvals[i].Pending()
      modifies `approvals
      ensures approvals == Deciding(old(View()), q, {})
    {
      ghost var before := View();
      for k := 0 to |rows|
        invariant approvals == map i | i in before.approvals ::
          if i in rows[..k] then DecidedRow(before.approvals[i], i, q, "") else before.approvals[i]
      {
        var i := rows[k];
        assert i in rows && i !in rows[..k] && rows[..k + 1] == rows[..k] + [i];
        if !approvals[i].Pending() {
          assert false;  // ApprovalWriteLost
        }
        approvals := approvals[i := DecidedRow(approvals[i], i, q, "")];
      }
      assert rows[..|rows|] == rows;
    }

    /** The rows of one run name the attempt that carries it on. */
    method StampResume(rows: seq<nat>, run: string, token: string, q: DecideRequest)
      returns (theirs: set<DecidedApproval>)
      requires forall i :: i in rows <==> i in q.ids
      modifies `approvals
      ensures approvals == Stamped(old(approvals), q.ids, run, token)
      ensures theirs == Theirs(old(approvals), q, run, token)
    {
      theirs := set i | i in rows && i in approvals && approvals[i].slot.run == run ::
        DecidedApproval(i, approvals[i].slot, q.verdict, token);
      approvals := map i | i in approvals ::
        if i in rows && approvals[i].slot.run == run && approvals[i].decision.Some?
        then approvals[i].(decision := Some(approvals[i].decision.value.(resume := token))) else approvals[i];
    }

    /** One run of the batch moves on and its rows say so. */
    method ResumeRun(q: DecideRequest, rows: seq<nat>, run: string, ghost before: Db, ghost done: set<string>)
      returns (theirs: Option<set<DecidedApproval>>, reattempted: set<Reattempt>)
      requires View() == PartWay(before, q, done) && CanBump(before, done) && run !in done
      requires forall i :: i in rows <==> i in q.ids
      modifies `runs, `workflows, `approvals
      ensures theirs.Some? <==> CanBump(before, done + {run})
      ensures theirs.Some? ==> View() == PartWay(before, q, done + {run})
      ensures theirs.Some? ==> DecidedSoFar(before, q, done + {run}) == DecidedSoFar(before, q, done) + theirs.value
      ensures theirs.Some? ==> MovedSoFar(before, done + {run}) == MovedSoFar(before, done) + reattempted
    {
      hide Deciding;
      hide DecidedSoFar;
      hide MovedSoFar;
      hide Stamped;
      hide Theirs;
      OneMoreMoves(before, done, run);
      BumpSeesRuns(View(), Moved(before, done), run);
      var token := BumpAndEnqueue(run);
      if token.None? { return None, {}; }
      reattempted := {Reattempt(run, runs[run].attempt, token.value)};
      OneMoreReattempt(before, done, run);
      OneMoreStamped(before, q, done, run);
      OneMoreDecided(before, q, done, run);
      var decided := StampResume(rows, run, token.value, q);
      return Some(decided), reattempted;
    }

    /** The bumps of a batch whose rows are written: every run moves, or the caller rolls back. */
    method ResumeRuns(q: DecideRequest, rows: seq<nat>, scouted: set<string>, ghost before: Db)
      returns (decided: Option<set<DecidedApproval>>, reattempted: set<Reattempt>)
      requires View() == before.(approvals := Deciding(before, q, {}))
      requires forall i :: i in rows <==> i in q.ids
      requires forall i | i in q.ids :: i in before.approvals && before.approvals[i].slot.run in scouted
      modifies `runs, `workflows, `approvals
      ensures decided.Some? <==> CanBump(before, scouted)
      ensures decided.Some? ==> View() == DecidedDb(before, q, scouted)
      ensures decided.Some? ==> decided.value == AnswersOf(DecidedDb(before, q, scouted), q.ids)
      ensures decided.Some? ==> reattempted == Reattempts(DecidedDb(before, q, scouted), scouted)
    {
      var answers: set<DecidedApproval> := {};
      reattempted := {};
      var rest := scouted;
      ghost var done := {};
      NothingMoved(before);
      assert BatchSoFar(before, q, {}, View(), answers, reattempted);
      while rest != {}
        invariant done + rest == scouted && done * rest == {} && CanBump(before, done)
        invariant BatchSoFar(before, q, done, View(), answers, reattempted)
        decreases rest
      {
        var run :| run in rest;
        var theirs, moved := ResumeRun(q, rows, run, before, done);
        if theirs.None? { return None, {}; }
        answers, reattempted := answers + theirs.value, reattempted + moved;
        rest, done := rest - {run}, done + {run};
      }
      assert done == scouted;
      AllDecided(before, q, scouted);
      AllReattempted(before, q, scouted);
      return Some(answers), reattempted;
    }

    /** Every check before the first write: what refuses or replays the batch, if anything does. */
    method Examine(rows: seq<nat>, q: DecideRequest, scouted: set<string>) returns (answer: Option<DecideOutcome>)
      requires Ascending(rows) && forall i :: i in rows <==> i in Locked(View(), q.ids)
      ensures answer.Some? ==> answer.value == DecideAnswer(View(), q, scouted) && !answer.value.Fresh?
      ensures answer.None? ==> Decidable(View(), q) && forall i | i in q.ids :: i in approvals && approvals[i].slot.run in scouted
    {
      ghost var locked := Locked(View(), q.ids);
      AnswerCases(View(), q, scouted);
      for k := 0 to |rows|
        invariant forall i | i in rows[..k] :: i in approvals && approvals[i].slot.run in scouted
      {
        assert rows[..k + 1] == rows[..k] + [rows[k]] && rows[k] in rows && rows[k] in locked;
        if approvals[rows[k]].slot.run !in scouted { return Some(RunMoved); }
      }
      assert rows[..|rows|] == rows;
      forall i | i in locked ensures i in rows {}
      var carrying := CountCarrying(rows, q.key);
      if carrying > 0 {
        if carrying != |rows| { return Some(BatchRefused); }
        var answers, batch, reattempted := ReadBack(rows, scouted, locked);
        return Some(Replayed(answers, batch, reattempted));
      }
      var reasons := Refusals(rows, q);
      return if reasons > 0 then Some(BatchRefused) else None;
    }

    /** The statements of `decideOnce`. */
    method DecideStatements(q: DecideRequest, scouted: set<string>) returns (outcome: DecideOutcome)
      modifies `runs, `workflows, `approvals
      ensures outcome == DecideAnswer(old(View()), q, scouted)
      ensures View() == DecideTx(old(View()), q, scouted)
    {
      ghost var before := View();
      var rows := LockApprovals(q.ids);
      var answer := Examine(rows, q, scouted);
      if answer.Some? { return answer.value; }
      DecidableIsFresh(before, q, scouted);
      forall i | i in q.ids ensures i in rows && approvals[i].Pending() { assert Acceptable(approvals[i], i, q); }

      var begunRuns, begunWorkflows, begunApprovals := runs, workflows, approvals;
      WriteRows(rows, q);
      var decided, reattempted := ResumeRuns(q, rows, scouted, before);
      if decided.None? {
        runs, workflows, approvals := begunRuns, begunWorkflows, begunApprovals;
        return BumpRefused;
      }
      return Fresh(decided.value, BatchOf(q), reattempted);
    }

    /**
     * `decideOnce`, over the runs an earlier unlocked read chose to lock. A batch is decided exactly when
     * each row is there, pending, in a locked run and this decider's to decide, its edit parses, and each
     * run can move; it is answered from what its key left when all its rows carry the key.
     */
    method DecideOnce(q: DecideRequest, scouted: set<string>) returns (outcome: DecideOutcome)
      modifies `runs, `workflows, `approvals
      ensures outcome == DecideAnswer(old(View()), q, scouted)
      ensures View() == DecideTx(old(View()), q, scouted)
      ensures outcome == RunMoved <==> exists i :: i in q.ids && i in old(approvals) && old(approvals)[i].slot.run !in scouted
      ensures outcome.Replayed? <==>
                outcome != RunMoved && (exists i :: i in q.ids && i in old(approvals)) &&
                forall i | i in q.ids && i in old(approvals) ::
                  old(approvals)[i].decision.Some? && old(approvals)[i].decision.value.key == q.key
      ensures outcome.Fresh? || outcome == BumpRefused <==>
                forall i | i in q.ids ::
                  i in old(approvals) && old(approvals)[i].decision.None? && old(approvals)[i].slot.run in scouted &&
                  (q.via in {Via.Archive, Via.Sweep} || old(approvals)[i].assignee.None? ||
                   old(approvals)[i].assignee == q.user || q.admin) &&
                  (i in q.edits ==> q.edits[i].Parsed?)
      ensures outcome.Fresh? ==> forall r | r in scouted ::
                r in old(runs) && AttemptToken(r, old(runs)[r].attempt + 1) !in old(workflows)
      ensures outcome == BumpRefused ==>
                exists r :: r in scouted && (r in old(runs) ==> AttemptToken(r, old(runs)[r].attempt + 1) in old(workflows))
      ensures !outcome.Fresh? ==> approvals == old(approvals) && runs == old(runs) && workflows == old(workflows)
      ensures outcome.Fresh? ==>
                approvals.Keys == old(approvals).Keys && runs.Keys == old(runs).Keys &&
                (forall r | r in runs ::
                   runs[r] == if r in scouted
                              then Run(old(runs)[r].attempt + 1, AttemptToken(r, old(runs)[r].attempt + 1), Running)
                              else old(runs)[r]) &&
                (forall i | i in approvals && i !in q.ids :: approvals[i] == old(approvals)[i]) &&
                forall i | i in q.ids ::
                  i in approvals && approvals[i].slot.run in runs &&
                  approvals[i] == old(approvals)[i].(
                    decision := Some(Decision(q.verdict, q.user, q.via, q.key, if |q.ids| > 1 then Some(q.uuid) else None,
                                              runs[approvals[i].slot.run].current)),
                    edited := if i in q.edits && q.edits[i].Parsed? then Some(q.edits[i].draft) else old(approvals)[i].edited)
      ensures outcome.Fresh? || outcome.Replayed? ==>
                (forall d: DecidedApproval :: d in outcome.rows <==>
                   d.id in q.ids && d.id in approvals && approvals[d.id].decision.Some? &&
                   d == DecidedApproval(d.id, approvals[d.id].slot, approvals[d.id].decision.value.verdict,
                                        approvals[d.id].decision.value.resume)) &&
                (forall t: Reattempt :: t in outcome.reattempted <==>
                   t.run in scouted && t.run in runs && t == Reattempt(t.run, runs[t.run].attempt, runs[t.run].current)) &&
                forall i | i in q.ids && i in approvals && forall j | j in q.ids && j in approvals :: i <= j ::
                  approvals[i].decision.Some? && outcome.batch == approvals[i].decision.value.batch
    {
      DecisionsByColumns(View(), q, scouted);
      DecidedByColumns(View(), q, scouted);
      if DecideAnswer(View(), q, scouted).Fresh? || DecideAnswer(View(), q, scouted).Replayed? {
        AnsweredByColumns(View(), q, scouted);
      }
      outcome := DecideStatements(q, scouted);
    }
  }

  lemma DecidableByColumns(db: Db, q: DecideRequest)
    ensures Decidable(db, q) <==> forall i | i in q.ids ::
              i in db.approvals && db.approvals[i].decision.None? &&
              (q.via in {Via.Archive, Via.Sweep} || db.approvals[i].assignee.None? || db.approvals[i].assignee == q.user || q.admin) &&
              (i in q.edits ==> q.edits[i].Parsed?)
  {
  }

  /** Which answer a batch is given, by what the tables hold. */
  lemma DecisionsByColumns(db: Db, q: DecideRequest, runs: set<string>)
    ensures var answer := DecideAnswer(db, q, runs);
            (answer == RunMoved <==> exists i :: i in q.ids && i in db.approvals && db.approvals[i].slot.run !in runs) &&
            (answer.Replayed? <==>
               answer != RunMoved && (exists i :: i in q.ids && i in db.approvals) &&
               forall i | i in q.ids && i in db.approvals ::
                 db.approvals[i].decision.Some? && db.approvals[i].decision.value.key == q.key) &&
            (answer.Fresh? || answer == BumpRefused <==>
               forall i | i in q.ids ::
                 i in db.approvals && db.approvals[i].decision.None? && db.approvals[i].slot.run in runs &&
                 (q.via in {Via.Archive, Via.Sweep} || db.approvals[i].assignee.None? || db.approvals[i].assignee == q.user || q.admin) &&
                 (i in q.edits ==> q.edits[i].Parsed?))
    ensures var answer := DecideAnswer(db, q, runs);
            (answer.Fresh? ==> forall r | r in runs :: r in db.runs && AttemptToken(r, db.runs[r].attempt + 1) !in db.workflows) &&
            (answer == BumpRefused ==>
               exists r :: r in runs && (r in db.runs ==> AttemptToken(r, db.runs[r].attempt + 1) in db.workflows))
  {
    AnswerCases(db, q, runs);
    DecidableByColumns(db, q);
    forall i | i in q.ids && i in db.approvals ensures i in Locked(db, q.ids) {}
    forall i | i in q.ids && i in db.approvals
      ensures CarriesKey(db.approvals[i], q.key) <==>
              db.approvals[i].decision.Some? && db.approvals[i].decision.value.key == q.key {}
  }

  /** What a batch that is decided leaves, and what is answered of it. */
  lemma DecidedByColumns(db: Db, q: DecideRequest, runs: set<string>)
    ensures !DecideAnswer(db, q, runs).Fresh? ==> DecideTx(db, q, runs) == db
    ensures DecideAnswer(db, q, runs).Fresh? ==>
              var db' := DecideTx(db, q, runs);
              db'.approvals.Keys == db.approvals.Keys && db'.runs.Keys == db.runs.Keys &&
              (forall r | r in db'.runs ::
                 db'.runs[r] == if r in runs then Run(db.runs[r].attempt + 1, AttemptToken(r, db.runs[r].attempt + 1), Running)
                                else db.runs[r]) &&
              (forall i | i in db'.approvals && i !in q.ids :: db'.approvals[i] == db.approvals[i]) &&
              forall i | i in q.ids ::
                i in db'.approvals && db'.approvals[i].slot.run in db'.runs &&
                db'.approvals[i] == db.approvals[i].(
                  decision := Some(Decision(q.verdict, q.user, q.via, q.key, if |q.ids| > 1 then Some(q.uuid) else None,
                                            db'.runs[db'.approvals[i].slot.run].current)),
                  edited := if i in q.edits && q.edits[i].Parsed? then Some(q.edits[i].draft) else db.approvals[i].edited)
  {
    if DecideAnswer(db, q, runs).Fresh? {
      FreshMoves(db, q, runs);
      RunsMoveByColumns(db, runs);
      forall i | i in q.ids ensures RowDecided(db, q, BumpTx(db, runs).runs, i) { RowIsDecided(db, q, runs, i); }
    }
  }

  lemma FreshMoves(db: Db, q: DecideRequest, runs: set<string>)
    requires DecideAnswer(db, q, runs).Fresh?
    ensures CanBump(db, runs) && forall i | i in q.ids :: i in db.approvals && db.approvals[i].slot.run in runs
  {
    AnswerCases(db, q, runs);
    forall i | i in q.ids ensures i in db.approvals && db.approvals[i].slot.run in runs { assert i in Locked(db, q.ids); }
  }

  lemma RunsMoveByColumns(db: Db, runs: set<string>)
    requires CanBump(db, runs)
    ensures var db' := BumpTx(db, runs);
            db'.runs.Keys == db.runs.Keys && runs <= db.runs.Keys &&
            forall r | r in db'.runs ::
              db'.runs[r] == if r in runs then Run(db.runs[r].attempt + 1, AttemptToken(r, db.runs[r].attempt + 1), Running)
                             else db.runs[r]
  {
  }

  /** One row of a batch, under the runs it leaves. */
  predicate RowDecided(db: Db, q: DecideRequest, runs: map<string, Run>, i: nat) {
    i in db.approvals && db.approvals[i].slot.run in runs &&
    WriteDecisions(db, q)[i] == db.approvals[i].(
      decision := Some(Decision(q.verdict, q.user, q.via, q.key, if |q.ids| > 1 then Some(q.uuid) else None,
                                runs[db.approvals[i].slot.run].current)),
      edited := if i in q.edits && q.edits[i].Parsed? then Some(q.edits[i].draft) else db.approvals[i].edited)
  }

  lemma RowIsDecided(db: Db, q: DecideRequest, runs: set<string>, i: nat)
    requires CanBump(db, runs) && i in q.ids && i in db.approvals && db.approvals[i].slot.run in runs
    ensures RowDecided(db, q, BumpTx(db, runs).runs, i)
  {
  }

  /** And what is answered, which is what then stands. */
  lemma AnsweredByColumns(db: Db, q: DecideRequest, runs: set<string>)
    requires DecideAnswer(db, q, runs).Fresh? || DecideAnswer(db, q, runs).Replayed?
    ensures var answer, db' := DecideAnswer(db, q, runs), DecideTx(db, q, runs);
            (forall d: DecidedApproval :: d in answer.rows <==>
               d.id in q.ids && d.id in db'.approvals && db'.approvals[d.id].decision.Some? &&
               d == DecidedApproval(d.id, db'.approvals[d.id].slot, db'.approvals[d.id].decision.value.verdict,
                                    db'.approvals[d.id].decision.value.resume)) &&
            (forall t: Reattempt :: t in answer.reattempted <==>
               t.run in runs && t.run in db'.runs && t == Reattempt(t.run, db'.runs[t.run].attempt, db'.runs[t.run].current)) &&
            forall i | i in q.ids && i in db'.approvals && forall j | j in q.ids && j in db'.approvals :: i <= j ::
              db'.approvals[i].decision.Some? && answer.batch == db'.approvals[i].decision.value.batch
  {
    AnswerCases(db, q, runs);
    var db' := DecideTx(db, q, runs);
    AnswersByColumns(db', q.ids);
    AnswersByColumns(db, Locked(db, q.ids));
    if DecideAnswer(db, q, runs).Fresh? { DecidedByColumns(db, q, runs); }
    forall t: Reattempt | t.run in runs && t.run in db'.runs && t == Reattempt(t.run, db'.runs[t.run].attempt, db'.runs[t.run].current)
      ensures t in Reattempts(db', runs) {}
    forall i | i in q.ids && i in db'.approvals && forall j | j in q.ids && j in db'.approvals :: i <= j
      ensures i == Least(Locked(db', q.ids))
    {
      assert i in Locked(db', q.ids);
      assert Least(Locked(db', q.ids)) in Locked(db', q.ids);
    }
  }

  lemma AnswersByColumns(db: Db, ids: set<nat>)
    ensures forall d: DecidedApproval :: d in AnswersOf(db, ids) <==>
              d.id in ids && d.id in db.approvals && db.approvals[d.id].decision.Some? &&
              d == DecidedApproval(d.id, db.approvals[d.id].slot, db.approvals[d.id].decision.value.verdict,
                                   db.approvals[d.id].decision.value.resume)
  {
    forall d: DecidedApproval | d.id in ids && d.id in db.approvals && db.approvals[d.id].decision.Some? && d == AnswerOf(db, d.id)
      ensures d in AnswersOf(db, ids) {}
  }

  /** A row's own insert does not count against it. */
  lemma OwnRowAside(db: Db, db': Db, period: string, own: Slot)
    requires db'.runs == db.runs && db'.calls - {own} == db.calls - {own}
    ensures ReservedBeside(db', period, own) == ReservedBeside(db, period, own)
  {
    assert db'.calls.Keys - {own} == (db'.calls - {own}).Keys && db.calls.Keys - {own} == (db.calls - {own}).Keys;
    forall s | s in db.calls.Keys - {own} ensures db'.calls[s] == db.calls[s] {
      assert (db'.calls - {own})[s] == (db.calls - {own})[s];
    }
    Same(db.calls.Keys - {own}, Hold(db, period), Hold(db', period));
  }

  function Stamped(approvals: map<nat, Approval>, ids: set<nat>, run: string, token: string): map<nat, Approval> {
    map i | i in approvals ::
      if i in ids && approvals[i].slot.run == run && approvals[i].decision.Some?
      then approvals[i].(decision := Some(approvals[i].decision.value.(resume := token))) else approvals[i]
  }

  function Theirs(approvals: map<nat, Approval>, q: DecideRequest, run: string, token: string): set<DecidedApproval> {
    set i | i in q.ids && i in approvals && approvals[i].slot.run == run ::
      DecidedApproval(i, approvals[i].slot, q.verdict, token)
  }

  function PartWay(db: Db, q: DecideRequest, done: set<string>): Db {
    Moved(db, done).(approvals := Deciding(db, q, done))
  }

  /** A batch part of the way: decided everywhere, resumed on the runs bumped so far. */
  function Deciding(db: Db, q: DecideRequest, done: set<string>): map<nat, Approval> {
    map i | i in db.approvals ::
      if i in q.ids then
        DecidedRow(db.approvals[i], i, q,
                   if db.approvals[i].slot.run in done && db.approvals[i].slot.run in db.runs
                   then NextToken(db, db.approvals[i].slot.run) else "")
      else db.approvals[i]
  }

  function DecidedSoFar(db: Db, q: DecideRequest, done: set<string>): set<DecidedApproval> {
    set i | i in q.ids && i in db.approvals && db.approvals[i].slot.run in done && db.approvals[i].slot.run in db.runs ::
      DecidedApproval(i, db.approvals[i].slot, q.verdict, NextToken(db, db.approvals[i].slot.run))
  }

  /** The answer by what its row sets say, as the code asks them. */
  lemma AnswerCases(db: Db, q: DecideRequest, runs: set<string>)
    ensures var locked, answer := Locked(db, q.ids), DecideAnswer(db, q, runs);
            if exists i :: i in locked && db.approvals[i].slot.run !in runs then answer == RunMoved
            else if exists i :: i in locked && CarriesKey(db.approvals[i], q.key) then
              answer == if forall i | i in locked :: CarriesKey(db.approvals[i], q.key)
                        then Replayed(AnswersOf(db, locked), BatchRead(db, locked), Reattempts(db, runs)) else BatchRefused
            else answer == if !Decidable(db, q) then BatchRefused
                           else if !CanBump(db, runs) then BumpRefused
                           else Fresh(AnswersOf(DecidedDb(db, q, runs), q.ids), BatchOf(q), Reattempts(DecidedDb(db, q, runs), runs))
  {
    var locked := Locked(db, q.ids);
    var replay := set i | i in locked && CarriesKey(db.approvals[i], q.key);
    if i :| i in locked && CarriesKey(db.approvals[i], q.key) { assert i in replay; }
    if replay == locked {
      forall i | i in locked ensures CarriesKey(db.approvals[i], q.key) { assert i in replay; }
    }
    assert (forall i | i in locked :: CarriesKey(db.approvals[i], q.key)) ==> replay == locked;
  }

  /** Past the checks only a bump can refuse the batch. */
  lemma DecidableIsFresh(db: Db, q: DecideRequest, runs: set<string>)
    requires Decidable(db, q) && forall i | i in q.ids :: i in db.approvals && db.approvals[i].slot.run in runs
    ensures DecideAnswer(db, q, runs) ==
            if CanBump(db, runs)
            then Fresh(AnswersOf(DecidedDb(db, q, runs), q.ids), BatchOf(q), Reattempts(DecidedDb(db, q, runs), runs))
            else BumpRefused
  {
    AnswerCases(db, q, runs);
    forall i | i in Locked(db, q.ids) ensures !CarriesKey(db.approvals[i], q.key) { assert Acceptable(db.approvals[i], i, q); }
  }

  lemma NothingMoved(db: Db)
    ensures Moved(db, {}) == db
  {
    assert Moved(db, {}).runs == db.runs && Moved(db, {}).workflows == db.workflows;
  }

  /** A bump reads runs and workflows only. */
  lemma BumpSeesRuns(x: Db, y: Db, run: string)
    requires x == y.(approvals := x.approvals)
    ensures CanBump(x, {run}) == CanBump(y, {run})
    ensures Moved(x, {run}) == Moved(y, {run}).(approvals := x.approvals)
    ensures run in x.runs ==> NextToken(x, run) == NextToken(y, run)
  {
    assert forall r | r in x.runs :: NextToken(x, r) == NextToken(y, r);
    assert Moved(x, {run}).runs == Moved(y, {run}).runs;
    assert (set r | r in {run} && r in x.runs :: NextToken(x, r)) == set r | r in {run} && r in y.runs :: NextToken(y, r);
  }

  lemma OneMoreStamped(db: Db, q: DecideRequest, done: set<string>, run: string)
    requires run in db.runs && run !in done
    ensures Stamped(Deciding(db, q, done), q.ids, run, NextToken(db, run)) == Deciding(db, q, done + {run})
  {
  }

  /** What the tables and the answer hold once these runs of a batch have moved on. */
  predicate BatchSoFar(db: Db, q: DecideRequest, done: set<string>, now: Db, answers: set<DecidedApproval>,
                       reattempted: set<Reattempt>) {
    now == PartWay(db, q, done) && answers == DecidedSoFar(db, q, done) && reattempted == MovedSoFar(db, done)
  }

  function MovedSoFar(db: Db, done: set<string>): set<Reattempt> {
    set r | r in done && r in db.runs :: Reattempt(r, db.runs[r].attempt + 1, NextToken(db, r))
  }

  lemma OneMoreReattempt(db: Db, done: set<string>, run: string)
    requires run in db.runs
    ensures MovedSoFar(db, done + {run}) == MovedSoFar(db, done) + {Reattempt(run, db.runs[run].attempt + 1, NextToken(db, run))}
  {
  }

  lemma AllReattempted(db: Db, q: DecideRequest, runs: set<string>)
    requires CanBump(db, runs)
    ensures MovedSoFar(db, runs) == Reattempts(DecidedDb(db, q, runs), runs)
  {
    var db' := DecidedDb(db, q, runs);
    assert forall r | r in runs :: Reattempt(r, db'.runs[r].attempt, db'.runs[r].current) == Reattempt(r, db.runs[r].attempt + 1, NextToken(db, r));
  }

  /** Bumping runs one at a time is bumping them together: two later attempts never share an id. */
  lemma OneMoreMoves(db: Db, done: set<string>, run: string)
    requires CanBump(db, done) && run !in done
    ensures CanBump(Moved(db, done), {run}) <==> CanBump(db, done + {run})
    ensures run in db.runs ==> NextToken(Moved(db, done), run) == NextToken(db, run)
    ensures run in db.runs ==> Moved(Moved(db, done), {run}) == Moved(db, done + {run})
  {
    if run in db.runs {
      forall r | r in done ensures NextToken(db, r) != NextToken(db, run) {
        TokensMeet(r, db.runs[r].attempt + 1, run, db.runs[run].attempt + 1);
      }
      SameMoves(db, done, run);
    }
  }

  lemma SameMoves(db: Db, done: set<string>, run: string)
    requires run in db.runs && run !in done
    ensures Moved(Moved(db, done), {run}) == Moved(db, done + {run})
  {
    var one, both := Moved(Moved(db, done), {run}), Moved(db, done + {run});
    assert one.runs == both.runs;
    forall t ensures t in one.workflows <==> t in both.workflows {}
  }

  lemma OneMoreDecided(db: Db, q: DecideRequest, done: set<string>, run: string)
    requires run in db.runs
    ensures DecidedSoFar(db, q, done + {run}) ==
            DecidedSoFar(db, q, done) + Theirs(Deciding(db, q, done), q, run, NextToken(db, run))
  {
    var token := NextToken(db, run);
    forall x ensures x in Theirs(Deciding(db, q, done), q, run, token) <==> x in Theirs(db.approvals, q, run, token) {
      if x in Theirs(db.approvals, q, run, token) {
        var i :| i in q.ids && i in db.approvals && db.approvals[i].slot.run == run &&
                 x == DecidedApproval(i, db.approvals[i].slot, q.verdict, token);
        assert i in Deciding(db, q, done);
      }
    }
  }

  lemma AllDecided(db: Db, q: DecideRequest, runs: set<string>)
    requires CanBump(db, runs) && forall i | i in q.ids :: i in db.approvals && db.approvals[i].slot.run in runs
    ensures Moved(db, runs).(approvals := Deciding(db, q, runs)) == DecidedDb(db, q, runs)
    ensures DecidedSoFar(db, q, runs) == AnswersOf(DecidedDb(db, q, runs), q.ids)
  {
    var db' := DecidedDb(db, q, runs);
    assert db'.approvals == Deciding(db, q, runs);
    forall x ensures x in DecidedSoFar(db, q, runs) <==> x in AnswersOf(db', q.ids) {
      if x in DecidedSoFar(db, q, runs) {
        var i :| i in q.ids && i in db.approvals && db.approvals[i].slot.run in runs && db.approvals[i].slot.run in db.runs &&
          x == DecidedApproval(i, db.approvals[i].slot, q.verdict, NextToken(db, db.approvals[i].slot.run));
        assert x == AnswerOf(db', i);
      }
      if x in AnswersOf(db', q.ids) {
        var i :| i in q.ids && i in db'.approvals && db'.approvals[i].decision.Some? && x == AnswerOf(db', i);
        assert x == DecidedApproval(i, db.approvals[i].slot, q.verdict, NextToken(db, db.approvals[i].slot.run));
      }
    }
  }

  /** A started row its run is no longer on, or no longer running, is abandoned; what holds back budget still does. */
  ghost predicate AbandonedOnly(db: Db, db': Db) {
    db' == db.(calls := db'.calls) && db'.calls.Keys == db.calls.Keys &&
    (forall s | s in db.calls ::
       db'.calls[s] == if db.calls[s].status == Started && s.run in db.runs &&
                          (db.runs[s.run].status != Running || db.runs[s.run].current != db.calls[s].workflow)
                       then db.calls[s].(status := Abandoned) else db.calls[s]) &&
    (forall period, s {:trigger Holds(db', period, s)} :: Holds(db', period, s) <==> Holds(db, period, s)) &&
    forall period {:trigger Books.Drift(db', period)} :: Books.Drift(db', period) == Books.Drift(db, period)
  }

  /** The sweep over started rows leaves it so, and a second one finds nothing. */
  lemma AbandonsOnly(db: Db)
    ensures AbandonedOnly(db, AbandonTx(db)) && AbandonTx(AbandonTx(db)) == AbandonTx(db)
  {
    forall period ensures Books.Drift(AbandonTx(db), period) == Books.Drift(db, period) {
      Books.AbandonKeepsDrift(db, period);
    }
    assert AbandonTx(AbandonTx(db)).calls == AbandonTx(db).calls;
  }
}
