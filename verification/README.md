# Hyperfixation: the run model and its neighbours, verified

This project models the parts of hyperfixation that decide whether money is spent twice, a message
is sent twice, a decision is lost, or a deployed app is locked out of its database, and proves what
the code promises about them. Every theorem is a statement over all inputs, all runs or all
interleavings. `dafny verify dfyconfig.toml` checks the whole project. Nothing was executed.

## The run model

A run has one fencing token, `current_workflow_id`. A step transaction checks it first; a bump moves
it and enqueues the next attempt; three ledgers (LLM calls, actions, approvals) sit on that fence.

- `Tables`, `IdOrder`, `Runs`, `Ledger`, `Approvals`, `Actions`: the rows, and each transaction as a function
  from tables to tables. Money is whole micro-dollars, time whole milliseconds.
- `Databases`: the same transactions statement by statement on a class of mutable tables, with the
  source's loops (the reservation sum, the locked rows, the refusal reasons, the decisions, the
  bumps, the tasks) and its rollbacks. Every method is proved to commit exactly what the function
  says, and says so in the tables' own columns too; two of the source's "cannot happen" throws, `ConcurrentBump` and `ApprovalWriteLost`,
  are dead branches in them; `Fencing` and `Deciding` prove them dead between transactions too.
- `Worlds`: any number of attempts executing, crashing, being executed again and running stale beside
  the control plane. One step is one committed transaction, one provider event, one crash or one
  tick of the clock, and `Reached(limit, steps)` is the state after any list of steps. Its `Log` is
  history no transaction reads: calls made, what hit them, what flows were told, what was sent.
- `Fences`, `Strandings`, `Calls`, `ProviderCalls`, `StaleCalls`, `Books`, `Spending`, `Reservations`,
  `Replay`, `Inbox`, `Sends`, `Deliveries`: invariants of every reachable state, and the theorems they give.
- `Progress`: that what nothing gets in the way of gets done, from any reachable state.
- `Fencing`, `Deciding`, `Locking`, `Retakes`: finer models, at statement level, of the four places where
  what happens inside a transaction matters: the fence's row locks, the runs and approvals a decision
  locks, the lock order of all transactions, and the one gap in `perform`'s first transaction.

The environment the run model assumes: DBOS executes one workflow id at most once at a time; a flow
body makes one ledger operation at a time and concludes between operations; a workflow DBOS reports
ended has no live execution; a ledger key keeps its channel. Bumps may come at any moment.

## The smaller cores

`StepPools` (the lease and tag machine of the fenced step pool, and `ctx.tx` on it), `Provisioning`
(crash-resumable cloud `hf new`), `CanonicalJson` (the text behind the ledger's collision check) and
`JsonReading` (a reader of JSON texts, written from RFC 8259 and not from the printer, that reads it back),
`Resolution` (entity resolution batches and the caller's loop), `FetchCache` (the polite fetch),
`TopologicalOrders` (publish order).

## Where the code does less than its comments say

Each of these is a theorem with its witness, for all the values it mentions.

1. `ReservationsAlwaysFit` needs two things the code does not check. A workflow that concluded its run is
   not executed again: `ClaimFitsExactly` says when a claim keeps the gate's bound, `ClaimCanOverReserve` is
   a run that breaks it. And a key re-enters its row with no lower estimate: the gate looks for room for the
   estimate it is asked for and then reserves the stored one, so it keeps the bound exactly when the period
   has room for that (`ReentryFitsExactly`), and for every pair of estimates that shrinks some run lacks it
   (`LoweredEstimateOverReserves`). What can really be spent still fits in both (`MoneyInFlightFits`).
2. A key re-entered with a higher estimate overspends its budget (`RaisedEstimateOverspends`, for every
   pair of estimates), because a re-entry leaves the row's estimate as it was
   (packages/ai/src/llm-run.ts:349-355).
3. A call that passed its gate can reach the provider after its row was settled, from any state of any
   run, exactly when its attempt is stale or can still be bumped (`CallFollowsSettlementExactly`).
4. A dedupe window is measured to the take, not to the send: an action is delivered at most once exactly
   when the provider's memory covers the declared window plus the delay of a send
   (`CoveredWindowDeliversOnce`, `UncoveredWindowDeliversTwice`).
5. `perform`'s re-take names no status, so a sweep that commits between its read and its write leaves a
   row being sent behind the task that asks about it (`RevivedExactly`).
6. Ids are not checked for freshness where a run starts. A run started under the id of another run's later
   attempt has no workflow of its own (`StartOwnsExactly`): nothing executes it until it is bumped, and no
   anomaly counts it (`StrandedWaits`). A run started under an id another run's next attempt would take
   blocks that run's bump (`CollisionExactly`, `TokensMeet`). The comment that `runs.start` bumps through
   `bumpAttempt` (packages/db/src/control-plane.ts:177-181) is not what packages/workflows/src/runs.ts:36-44 does.
7. A full `hf new` returns exactly when it meets none of nine shapes (`ReturnsExactly`). One is over in one
   more run (`SurpriseIsOver`), which may also look up a lost uuid; the other eight no run of whatever steps
   gets past (`HopelessStays`), so two full runs tell (`TwoRunsTell`). Three of the eight are files that lost
   what their own record keeps from being made again: the passwords once `database` is recorded, although
   packages/cli/src/provision-database.ts:63-76 would generate new ones if it were called; the repository's
   name once `repo` is recorded and before Coolify has the application; and the application's uuid while
   the environment is recorded as current and the deploy is still to come. The other five: the app's directory
   or the scratch one is there and the file does not vouch for it, as when the whole file is lost; the
   directory is recorded and gone; the commit is recorded and gone; the repository's `main` is another commit,
   as when file and directory are lost; and a step before `database` is refused for what somebody else holds.
8. A resolver without exact keys gives every unlinked row of a batch the first one's outcome
   (`NoExactKeysLinkEverythingTogether`), because an empty key tuple is still a tuple; `RowsFollowExactly`
   says whose outcome any row gets.
9. A full batch ends the caller's loop with rows behind it never tried exactly when each of its rows is
   unlinked and reviewed, or follows one that is (`UntriedExactlyBehindReviews`), and then every later
   batch is the same one (`ReviewsStarveTheRest`).
10. The polite wait is counted from the stamp and rounded to a millisecond, so two requests can start closer
    than the interval by up to 499 microseconds and the time the first one took from its stamp to its start,
    though never out of turn (`RequestsAreSpaced`, `SpacingFallsShort`).
11. A tag put on a checkout that was already released would let it write (`LateTagWrites`); only `tx`'s
    own order keeps that out.
12. A replayed decision names the attempts its runs are on by then, not always the ones the first call
    bumped them to (`ReattemptsReplayExactly`), because `reattempted` is read from the locked runs
    (packages/workflows/src/approvals.ts:552-556).

## Model

| member | source | states |
|---|---|---|
| Tokens.TokenNamesAttempt | packages/db/src/control-plane.ts:144-147 | within a run a token names one attempt, whatever the run's id looks like |
| Tokens.TokensMeet | packages/db/src/control-plane.ts:144-147 | two runs' attempts share a token exactly when one run's id is the other's later token |
| Tokens.ColonFreeTokensDiffer | packages/workflows/src/runs.ts:33-34 | run ids without a colon, as generated ones are, never share a token |
| Tokens.TokenReadsBack | packages/db/src/control-plane.ts:144-147 | attempt 1 has the run's own id, and any other the id, a colon and the attempt's decimal numeral, which reads back as the attempt |
| Databases.Database.Start | packages/workflows/src/runs.ts:26-45 | run row and workflow together or not at all; a taken id adds no workflow, or refuses under another flow's name |
| Databases.Database.WriteStatus | packages/workflows/src/run-status.ts:5-47 | written exactly when the run is on the attempt; it moves no token, so no attempt's fence opens or closes |
| Databases.Database.BumpAndEnqueue | packages/db/src/control-plane.ts:182-213 | attempt, token and workflow move together; the compare-and-set cannot miss; a taken id refuses |
| Ledger.ReservationIsTheSum | packages/ai/src/llm-run.ts:321-331 | what is reserved is the sum over the statement's own join: started, of the period, of the workflow its run is on and running |
| Databases.Database.SumReserved | packages/ai/src/llm-run.ts:321-331 | the loop adds up exactly that |
| Databases.Database.OpenGate | packages/ai/src/llm-run.ts:258-358 | when each outcome is given, by the tables' columns: a paused app is refused before any row is looked at; and what each one commits or rolls back |
| Databases.Database.Complete | packages/ai/src/llm-run.ts:369-391 | whoever asks again is told this text; the books drift by no more than the row had cost before; no other row, period or limit moves |
| Databases.Database.RecordProviderError | packages/ai/src/llm-run.ts:394-412 | whoever asks again is told this error; no counter and no other row moves |
| Databases.Database.SetBudget | packages/admin/src/budget.ts:84-128 | only the period's limit moves, the old row is returned, drift is unchanged |
| Databases.Database.TakeAction | packages/workflows/src/actions.ts:165-225 | by the row's status, the channel and the time, whether a send goes ahead, and the row and task left in each case |
| Databases.Database.SettleAction | packages/workflows/src/actions.ts:238-256 | a later take is told what was sent, or sends a failed one again inside the window, or asks; no other row moves |
| Databases.AbandonsOnly | packages/workflows/src/reconcile.ts:86-90 | no started row is left whose workflow is over; what holds back budget still does, no money moves, and a second sweep finds nothing |
| Databases.Database.MarkUncertain | packages/workflows/src/reconcile.ts:103-108 | the rows returned are the rows that changed, all uncertain and over; a second pass returns none |
| Databases.Database.Sweep | packages/workflows/src/reconcile.ts:277-286 | both sweeps, and one task for each row the second one moved |
| Databases.Database.CreateOrRead | packages/workflows/src/approvals.ts:119-142 | one approval per gate, whoever asks first |
| Databases.Database.LockApprovals | packages/workflows/src/approvals.ts:274-276 | the batch's existing rows in id order |
| Databases.Database.Refusals | packages/workflows/src/approvals.ts:461-520 | no reason is found exactly when every row is there and pending, is nobody else's unless an admin, the archive or the sweep decides it, and has no edit that does not parse |
| Databases.Database.ReadBack | packages/workflows/src/approvals.ts:526-558 | a replay reads back rows, batch id and the runs' attempts as they stand |
| Databases.Database.DecideOnce | packages/workflows/src/approvals.ts:346-455 | which answer is given, who may decide included, the whole of it, and each row and run afterwards, by the tables' columns; refusals and rollbacks change nothing |
| Databases.OneMoreMoves | packages/workflows/src/approvals.ts:401-407 | bumping a batch's runs one at a time is bumping them together |
| Fences.FenceIsCurrency | packages/db/src/step-pool.ts:9-10 | an attempt passes the fence exactly while its run is on it |
| Fences.RunsAreTokened | packages/db/src/control-plane.ts:152-154 | in every state of every run the token is the attempt's and has its workflow row |
| Fences.NoAnomalies | packages/core/src/status.ts:68-71 | the anomaly count is zero in every reachable state |
| Fences.CollisionExactly | packages/db/src/control-plane.ts:200-203 | a bump meets a taken id exactly when a run was started under it |
| Strandings.StartOwnsExactly | packages/workflows/src/runs.ts:34-44 | a started run has a workflow of its own exactly when its id was free, and the id was taken exactly when another run came to a later attempt under it |
| Strandings.StrandedWaits | packages/core/src/status.ts:68-71 | a run without one is executed by nobody until it is bumped, and no anomaly counts it |
| Strandings.OneExecutionPerWorkflow | packages/db/src/control-plane.ts:144-147 | two live executions never share a workflow id, stranded runs included |
| Fencing.CommitsFollowAttempts | packages/db/src/step-pool.ts:47-74 | over any interleaving of statements, a run's writes commit in attempt order |
| Fencing.CommitsWhileCurrent | packages/db/src/step-pool.ts:56-60 | a step transaction commits only while its token is current |
| Fencing.ConcurrentBumpNeverHappens | packages/db/src/control-plane.ts:197-198 | no interleaving makes a bump's compare-and-set miss |
| Fencing.CurrentStepCommits | packages/db/src/step-pool.ts:47-74 | from any reached state in which no bump has the row, a step of the current attempt commits |
| Fencing.FreeRunIsBumped | packages/db/src/control-plane.ts:182-213 | from any reached state in which nobody has the row, the run is bumped |
| Deciding.UpdatesNeverMiss | packages/workflows/src/approvals.ts:384-407 | no interleaving of decisions and bumps makes the conditional update of a locked row miss, nor the compare-and-set of a locked run |
| Deciding.RowsAreDecidedOnce | packages/workflows/src/approvals.ts:278-281 | no approval is decided twice, whichever batches meet on it |
| Deciding.BatchesCommitAtOnce | packages/workflows/src/approvals.ts:346-363 | a batch commits as if it ran alone at that instant: all its rows pending before, all decided after and resumed by the attempt their run is then on |
| Deciding.BumpsCommitAtOnce | packages/workflows/src/approvals.ts:400-411 | each run of a batch, or of a bump of its own, moves by one attempt from what is committed then, and no other run does |
| Deciding.ReplaysReadWhatStands | packages/workflows/src/approvals.ts:526-558 | what a replay reads of its locked rows and runs is what is committed, and no run is behind the attempt that resumed it |
| Deciding.PendingCanBeDecided | packages/workflows/src/approvals.ts:346-411 | from any reached state, a pending row that nobody is at can be decided, and its run moves on for it |
| Deciding.RunMovesByInsertOnly | packages/workflows/src/approvals.ts:361-363 | a locked row is of a run that was not locked only if it was inserted after the unlocked read |
| Locking.OperationsAreOrdered | packages/workflows/src/approvals.ts:265-276 | every transaction takes locks upwards or takes again what it holds, the late bumps of a decision, the fetch and the resolution batch included |
| Locking.NoDeadlock | packages/ai/src/llm-run.ts:112-116 | the waits-for graph has no cycle, for any number of transactions and one hygiene pass |
| Locking.SomeoneCanGo | packages/admin/src/budget.ts:10-19 | while a transaction is open, some transaction is not waiting |
| Locking.TwoSweepsCanDeadlock | packages/workflows/src/worker-lock.ts:3-9 | without the worker lock two hygiene passes reach a deadlock, on any two rows they meet from opposite ends |
| Calls.RowsPersist | packages/ai/src/llm-run.ts:304-316 | rows stay, the double-charge flag never clears, settled rows never change |
| Calls.LedgerIsSound | packages/ai/src/llm-run.ts:294-357 | a call in flight of the current attempt has its started row, its period and its token |
| ProviderCalls.AlwaysPaid | packages/ai/src/llm-run.ts:153-165 | every provider call was let through by a gate of its own |
| ProviderCalls.ExtraCallsBoundedAndVisible | packages/ai/src/llm-run.ts:118-119 | calls of a key are at most one plus what hit them in flight, and from the second on the row is flagged |
| ProviderCalls.HitsAreEarned | packages/ai/src/llm-run.ts:118-119 | what counts as a hit: a bump, a decision, a crash or a lost completion that meets the current attempt's call in flight, once |
| ProviderCalls.CurrentCallsPrecedeSettlement | packages/ai/src/llm-run.ts:314-315 | no call of the current attempt follows a settled row |
| StaleCalls.CallFollowsSettlementExactly | packages/ai/src/llm-run.ts:153-165 | from any reached state, a held call can follow its row's settlement, as one call more, exactly when its attempt is stale or can still be bumped |
| Books.DriftIsZero | packages/core/src/status.ts:53-61 | spent equals the sum of the settled rows' costs, period by period, in every reachable state |
| Books.GateKeepsDrift | packages/ai/src/llm-run.ts:345-356 | re-entering a row in another month moves no money |
| Spending.MoneyInFlightFits | packages/ai/src/llm-run.ts:317-344 | spent plus what calls in flight can cost fits every budget, under the three named assumptions |
| Spending.RaisedEstimateOverspends | packages/ai/src/llm-run.ts:349-355 | a key re-entered with any higher estimate can spend more than the budget |
| Reservations.ReservationsAlwaysFit | packages/ai/src/llm-run.ts:320-338 | spent plus the SQL reservation never exceeds the budget, if concluded workflows are not executed again and rows are re-entered with their own estimate |
| Reservations.ClaimFitsExactly | packages/workflows/src/define-flow.ts:106-112 | a claim keeps that bound exactly when the period has room for what it revives |
| Reservations.ClaimCanOverReserve | packages/workflows/src/run-status.ts:5-7 | a run in which it lacks that room |
| Reservations.ReentryFitsExactly | packages/ai/src/llm-run.ts:320-356 | a re-entering gate keeps that bound exactly when the period has room for the row's stored estimate, which it has if the one asked for is no lower |
| Reservations.LoweredEstimateOverReserves | packages/ai/src/llm-run.ts:345-356 | for every pair of estimates that shrinks, a run in which it lacks that room |
| Progress.PausedAppReservesNothing | packages/ai/src/llm-run.ts:265-273 | over any steps in which the app stays paused, no gate lets a call through |
| Progress.CallIsCarriedOut | packages/ai/src/llm-run.ts:153-165 | from any reached state, a call let through is made once, paid for in its period, recorded and told to the flow |
| Progress.AnswerIsToldAgain | packages/ai/src/llm-run.ts:314-315 | an attempt that asks again is told the same, and no call is made |
| Progress.SendIsCarriedOut | packages/workflows/src/actions.ts:126-160 | from any reached state, a send of a new action reaches the provider once and its row says what was sent |
| Progress.FlowWaits | packages/workflows/src/approvals.ts:95-142 | from any reached state, a flow that comes to an undecided gate files it and leaves its run waiting |
| Progress.DecisionIsTold | packages/workflows/src/approvals.ts:85-104 | from any reached state, a decision by somebody who may moves the run to its next attempt, which is told the decision and the draft it leaves |
| Replay.HistoriesAreRemembered | packages/ai/src/llm-run.ts:314-315 | whatever a flow was told is still what the tables say |
| Replay.ExecutionsRetrace | packages/workflows/src/approvals.ts:85-104 | of two executions of a deterministic flow, one's history is a beginning of the other's |
| Replay.KeysAnswerOnce | packages/ai/src/llm-run.ts:153-158 | no key is answered in two ways to any two attempts |
| Inbox.NoLostWakeup | packages/workflows/src/approvals.ts:95-112 | a waiting run's gate is still pending, in every reachable state |
| Inbox.DecidedIsResumed | packages/workflows/src/approvals.ts:400-411 | every decision enqueued an attempt its run has reached |
| Inbox.StepKeepsDecisions | packages/workflows/src/approvals.ts:278-281 | an approval leaves pending at most once and never changes again |
| Inbox.AllOrNone | packages/workflows/src/approvals.ts:312-322 | a batch whose rows are all acceptable, in locked runs that can move, decides all of them, bumps each run once and stamps the new workflow on its rows; any other changes nothing |
| Inbox.FreshExactly | packages/workflows/src/approvals.ts:358-380 | a batch is answered as decided exactly when every row is there and acceptable, in a locked run, and every run can move |
| Inbox.ScoutedExactly | packages/workflows/src/approvals.ts:354-363 | the runs bumped are exactly the runs of the rows, although they were read before the locks |
| Inbox.RepeatedKeyReplays | packages/workflows/src/approvals.ts:365-378 | repeating a decision key on any part of its batch, however later, writes nothing and answers the same rows and batch |
| Inbox.ReattemptsReplayExactly | packages/workflows/src/approvals.ts:522-558 | the attempts it names are the first call's exactly while no run of the batch was bumped again |
| Sends.OutboxIsSound | packages/workflows/src/actions.ts:165-225 | a taken row is its attempt's to settle, inside the window, with tasks for uncertain rows only |
| Deliveries.OneSendWithoutDedupe | packages/workflows/src/actions.ts:149-160 | a channel that cannot dedupe is sent to at most once per row, over any run |
| Deliveries.OneTaskPerUncertainRow | packages/workflows/src/actions.ts:101-115 | an uncertain row has exactly one task, any other row none |
| Deliveries.ActionsEndOnce | packages/workflows/src/actions.ts:180-185 | sent and uncertain rows never change again |
| Deliveries.CoveredWindowDeliversOnce | packages/workflows/src/actions.ts:126-136 | deliveries are at most one when the provider's memory covers window plus delay |
| Deliveries.UncoveredWindowDeliversTwice | packages/workflows/src/actions.ts:188-197 | otherwise some run delivers twice |
| Retakes.RevivedExactly | packages/workflows/src/actions.ts:189-204 | a row is sent behind its task exactly when a sweep falls between the read and the re-take |
| Retakes.UninterruptedIsTake | packages/workflows/src/actions.ts:165-225 | without a sweep in the gap the statements are the one transaction |
| StepPools.WritesComeFromTheTagHolder | packages/db/src/fenced-client.ts:85-134 | a forwarded write came from the open checkout holding its connection's tag |
| StepPools.ReturnedAtMostOnce | packages/db/src/fenced-client.ts:101-110 | a checkout returns its connection at most once, refusals included |
| StepPools.LateTagWrites | packages/db/src/fenced-client.ts:65-69 | tagging a released checkout would let it write |
| StepPools.StepPool.Release | packages/db/src/fenced-client.ts:105-110 | the checkout is over and its tag gone, a second release changes nothing, its return is counted once, and no other checkout or tag is touched |
| StepPools.StepPool.Query | packages/db/src/fenced-client.ts:112-123 | refused exactly for a write without the tag, and then nothing is sent and the checkout is over; otherwise this statement alone is sent |
| StepPools.StepPool.PoolQuery | packages/db/src/fenced-client.ts:151-157 | a write is refused before a checkout, a read has one of its own |
| StepPools.StepPool.Tx | packages/db/src/step-pool.ts:47-74 | every statement reaches the one tagged connection, which goes back untagged whatever fails |
| Provisioning.HistoriesAreSound | packages/cli/src/provision-database.ts:42-52 | after any crashes and any loss of the file, a password in the file is one the cluster accepts |
| Provisioning.FullRunSynchronises | packages/cli/src/cloud-steps/coolify.ts:180-187 | a full run that returns leaves the app's containers, Coolify, the file and the cluster with one migrator password, one application password and one auth secret, each where it belongs |
| Provisioning.NoReturnLocksOut | packages/cli/src/new-cloud.ts:99-121 | no run that returns, of whatever steps, leaves a recorded environment with a password the cluster refuses, or an existing role's password changed without one |
| Provisioning.ReturnsExactly | packages/cli/src/new-cloud.ts:152-174 | after any history of crashes, losses and interference, a full run that does not crash returns exactly when it meets none of nine shapes |
| Provisioning.SurpriseIsOver | packages/cli/src/new-cloud.ts:130-142 | one of the nine, met without the others, is over in one more run |
| Provisioning.HopelessStays | packages/cli/src/cloud-steps/template.ts:72-80 | the other eight, a lost uuid only without the ninth, are for good: no run of whatever steps, crashed or not, gets past them |
| Provisioning.TwoRunsTell | packages/cli/src/new-cloud.ts:130-142 | nothing will return any more exactly when two full runs in a row did not |
| Provisioning.Provisioner.FetchTemplate | packages/cli/src/cloud-steps/template.ts:28-80 | a directory is adopted only if the file vouches for it; getting through leaves the app's directory and the record that it was begun, a refusal touches nothing |
| Provisioning.Provisioner.InstallApp | packages/cli/src/cloud-steps/install.ts:15-38 | the directory has a commit afterwards, and keeps the one it had |
| Provisioning.Provisioner.PushRepository | packages/cli/src/cloud-steps/repo.ts:45-111 | `main` is at the directory's commit afterwards; a `main` that was there is never moved, and a refusal touches nothing |
| Provisioning.Provisioner.RunSteps | packages/cli/src/new-cloud.ts:152-174 | every state the runner passes through, and its outcome; one that returns has recorded all its steps |
| Provisioning.Provisioner.ProvisionDatabase | packages/cli/src/provision-database.ts:63-123 | roles before file before record, and when it counts as a rotation |
| Provisioning.Provisioner.ConfigureCoolify | packages/cli/src/cloud-steps/coolify.ts:228-266 | gets through exactly with the passwords, the app's directory, and an application or a repository to make it from; then Coolify holds each of the file's secrets in its own variable and the hash says so |
| Provisioning.Provisioner.InvalidateStaleSecretSteps | packages/cli/src/new-cloud.ts:130-142 | afterwards a recorded `coolify` or `deploy` was done with the secrets the file holds; nothing else is forgotten |
| Provisioning.Provisioner.IsInOrder | packages/cli/src/new-cloud.ts:325-334 | comparing neighbours decides the order of the whole list |
| CanonicalJson.TextTellsTheValue | packages/ai/src/input-hash.ts:16-23 | two inputs print the same text exactly when they are the same JSON, objects unordered |
| JsonReading.ReadsBack | packages/ai/src/input-hash.ts:16-23 | the text is JSON: a reader of RFC 8259 reads back the value that was printed, without what has no text, its members sorted by code unit |
| JsonReading.InsideReadsBack | packages/ai/src/input-hash.ts:17-17 | a printed string reads back as the string, by the escapes of section 7 of RFC 8259 |
| CanonicalJson.QuotesPartOnce | packages/ai/src/input-hash.ts:17-17 | a printed string tells the string and where it ends, lone surrogates included |
| CanonicalJson.AscendingIsUnique | packages/ai/src/input-hash.ts:19-21 | there is one sorted listing of an object's members |
| CanonicalJson.CollisionFiresExactly | packages/ai/src/llm-run.ts:311-313 | a key collision is raised exactly when a key is reused with a different input |
| Resolution.CountersAddUp | packages/core/src/resolution.ts:160-173 | the six counters sum to the rows scanned |
| Resolution.CountersTellEnds | packages/core/src/resolution.ts:160-173 | how many rows ended errored, for review and linked is what the counters say |
| Resolution.CountersTellWhy | packages/core/src/resolution.ts:259-298 | and so is how many were updated, took their best candidate, or made a record |
| Resolution.ErrorsCostAttempts | packages/core/src/resolution.ts:240-246 | an attempt is charged to each row that ended errored, and to no other |
| Resolution.LeadersSettle | packages/core/src/resolution.ts:257-298 | a row that decides for itself is linked to its exact match, else parked with or linked to its best candidate, else linked to a record of its own, and errored if its update throws |
| Resolution.RecordsHoldTheLastRow | packages/core/src/resolution.ts:257-298 | a record that rows of a batch update or create is there afterwards, as the last of them left it |
| Resolution.UnreachedRecordsStay | packages/core/src/resolution.ts:211-237 | a record no row of the batch updates or creates is as it was; a follower updates none |
| Resolution.TupleSharesRecord | packages/core/src/resolution.ts:211-237 | unlinked rows with one tuple end alike, and on one record if linked |
| Resolution.RowsFollowExactly | packages/core/src/resolution.ts:211-237 | a row ends with another's outcome exactly when an earlier unlinked row has its tuple, and then with the first such row's; otherwise with its own |
| Resolution.TupleCreatesOnce | packages/core/src/resolution.ts:293-297 | at most one record is made per tuple |
| Resolution.LinksAreKept | packages/core/src/resolution.ts:143-146 | an existing link stays, and unscanned rows are untouched |
| Resolution.ErrorsLeaveNothing | packages/core/src/resolution.ts:240-246 | a row that ended a batch errored left no link, no record and no update of one behind, whatever the other rows did |
| Resolution.NoExactKeysLinkEverythingTogether | packages/core/src/resolution.ts:127-135 | without exact keys every unlinked row of a batch ends with the first one's own outcome |
| Resolution.BatchSpends | packages/core/src/resolution.ts:249-254 | every row a batch moves costs an attempt that was left |
| Resolution.UntriedExactlyBehindReviews | packages/core/src/resolution.ts:249-254 | with a row untried, a batch is the last exactly when each row it scanned is unlinked and reviewed, or follows one that is |
| Resolution.ReviewsStarveTheRest | packages/core/src/resolution.ts:249-254 | for every store, limit and number of attempts, the next scan is then the same rows and leaves the same store |
| Resolution.SourceRecords.ResolveBatch | packages/core/src/resolution.ts:151-255 | the rows scanned are the first unlinked ones with attempts left, the loop over savepoints does turn by turn what the batch is said to do, and it is done exactly when it was short or only reviewed |
| Resolution.SourceRecords.ResolveAll | packages/core/src/resolution.ts:249-255 | the caller's loop ends; a short last batch had scanned every row left to scan |
| FetchCache.RequestsAreSpaced | packages/core/src/fetch.ts:53-65 | committed requests to a host start in turn, an interval apart less the rounding and the earlier one's lag |
| FetchCache.WaitFallsShort | packages/core/src/fetch.ts:58-61 | by how much the rounded wait falls short of what is owed, exactly |
| FetchCache.SpacingFallsShort | packages/core/src/fetch.ts:58-61 | for every interval and every lag a run reaches exactly that gap |
| FetchCache.CachedIsNotFetched | packages/core/src/fetch.ts:195-197 | no request is sent while a stored row is inside its expiry |
| FetchCache.ExpiredIsFetched | packages/core/src/fetch.ts:18-20 | from any reached state with nobody at the host, a row that is missing or past its expiry is fetched by the next worker to come, and stored for its time |
| FetchCache.OneRequestPerHost | packages/core/src/fetch.ts:22-27 | two workers never have requests to one host under way together |
| FetchCache.Fetcher.FetchGet | packages/core/src/fetch.ts:181-244 | a hit is a stored row inside its expiry and changes nothing; a miss waits out the interval to within the rounding, stamps, requests and stores for its time; a failure leaves no stamp |
| TopologicalOrders.OrderIsTopological | packages/tools/src/registry.ts:297-300 | the order is a permutation with every dependency first |
| TopologicalOrders.NoOrderExactly | packages/tools/src/registry.ts:315-315 | it throws exactly when the group's dependencies have a cycle |
| TopologicalOrders.TopologicalOrder | packages/tools/src/registry.ts:301-322 | the loop ends with that order of the manifests' own names and dependencies, or with that throw for a round of them |

## Left out

- Statement interleavings inside a run-model transaction, other than the fence, the decisions, the lock order and `perform`'s re-take: each transaction is atomic.
- Audit, activity and notification rows, and `notified_at`: written beside what is modelled and never read by it.
- The flow names `runs.start` and DBOS compare when an id is taken: whether they agree is a parameter of the step.
- `decide()`'s one retry after a moved run: it is a second `DecideOnce`.
- The suspend path's second, identical status write in the flow wrapper: fenced on the same token as the first.
- DBOS checkpoints, queues, versions and the flow registry (`UnknownFlow`, `DuplicateFlow`): enqueueing is inserting a workflow row.
- `reconcile()`'s choice of which runs to bump, conclude or expire: bumps and decisions may come at any moment instead.
- What a flow is told other than call answers, stored errors and decisions (an action's result, a refused gate) is not part of a history; a flow that branches on a refused gate is not a deterministic flow here.
- Spending.MoneyInFlightFits: assumes a reply costs at most its estimate, an admin does not lower a budget, and a key re-enters with no higher estimate; `RaisedEstimateOverspends` shows what the last one is for.
- Reservations.ReservationsAlwaysFit: assumes in addition an unchanged estimate on re-entry and no execution of a concluded workflow; `ReentryFitsExactly` and `ClaimFitsExactly` say when a re-entry and a claim keep the bound without that.
- Locking.NoDeadlock: covers the transactions named in `Operation`; app code inside a `ctx.tx` may take locks of its own, and DBOS's tables are not in the order.
- Fractions of a micro-dollar, `numeric` column scales and token pricing.
- SQL classification: a statement is a write or is not, and `pool` event listeners that hand out the raw client are outside the fence by the source's own account.
- Provisioning.FullRunSynchronises: Sentry, Langfuse and provider keys carry no secret that `secretsHash` covers.
- Provisioning.ReturnsExactly: an API, a command or a deploy that fails, a GitHub App that is not installed and an environment that drifted from the compose file are crashes of their step, as they may be over by the next run; nobody deletes Coolify's application or the cluster's roles behind its back.
- Values `canonicalJson` takes for plain objects although they are not JSON (dates, maps, class instances) and values `JSON.stringify` throws on.
- SHA-256 and random secrets: taken to be collision-free and never drawn twice.
- A link's method and score, and the payload a record takes: a record holds the id of the row it last took.
- `bigramDice` and the candidate query: the best candidate and its review are whatever they turn out to be.
- Response bodies, the size cap and error rows of the fetch cache: a refused body is a stored row like any other.
