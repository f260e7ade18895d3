# Verified model of DBWarden's data migrations

This project models the parts of DBWarden that decide whether a data migration is applied exactly
once and leaves the tables it promised: the three execution engines with their journals and crash
recovery, keyset batching, the expression checker, the two graph algorithms of the compiler, the SQL
statement splitter, and many-source merges. `dafny verify dfyconfig.toml` checks everything.

## The parts

**The nontransactional engine** (`Plans`, `Journal`, `JournalSteps`, `Connection`, `RunSteps`,
`ReconcileSteps`, `Nontransactional`, `JournalTheorems`, `JournalHistory`, `DoubtHistories`). A
`Connection` has a durable store, the open transaction's view of it, and a script of faults: every
action on the database draws one, and it may raise before or after its effect or end the process
there. Running for all scripts is running with a crash or an error at any point. Methods follow the
engine branch by branch; what they keep is one invariant, `Journal.Inv`, over journal, checkpoints,
user tables and receipts. `Progress` (where the current step stands, whether the commit that began it
went unheard, and which steps a reconciliation closed), `origin` (the tables when an epoch opened) and
the receipts are auxiliary: nothing reads them. `DoubtHistories` runs the engine into the states in
which the journal misleads.

**The ClickHouse engine** (`HashChain`, `ClickHouseLog`, `ClickHouseData`, `ClickHousePlace`,
`ClickHouse`, `ClickHouseHistory`, `ClickHouseStop`). Append-only records sealed by an arbitrary collision-free
checksum; queries by version, in lemmas that hold for any order of ties; `FINAL`; a clock that need
not run forward between processes. The statements of all epochs stand in one line (`Line`); the
auxiliary `Place` says how far the checkpoints have come in it, which effects are missing and which
checkpoints a reconciliation closed. `Server.Valid` equates the user tables with what that says.

**The transactional engine** (`Transactional`). All of a plan and its journal row, or nothing and the
row of a failure.

**Batching** (`Keys`, `Batches`), **expressions** (`Expressions`, `Implication`, `ImplicationExact`,
`Checker`, `CheckerSoundness`, `CheckerExact`), **graphs** (`Graphs`, `Names`, `Ordering`, `Lineage`, `Snapshots`),
**splitting** (`Splitter`) and **merging** (`Merge`) each pair the source's algorithm with an independent
meaning: the single statement, evaluation in SQL's three-valued logic, paths and cycles, a lexer, a
ranking.

## What turned out not to hold as promised

Each of these is a lemma or a run of the modelled code with the input that shows it, beside the exact
condition under which the code does meet the promise.

- A verified reconciliation is right about a step exactly when its after-guards refuse the one state a
  crash can leave with every checkpoint present and an effect missing
  (`JournalTheorems.EvidenceSufficesIff`, over all stores `DoubtHistories.ReconcilesRightIff`).
  `DoubtHistories.MistakenRetry` dies between a checkpoint and its statement, reconciles, retries, and
  ends in APPLIED_SUCCESS without the effect. Only steps that a verified retry closed need that trust.
- A commit that took effect although its caller saw an error misleads a process that lives on. On MySQL
  one commit matters: the first checkpoint of a run that found none. A settled epoch has an open
  checkpoint exactly when that commit went unheard (`JournalTheorems.SettledIsDone`);
  `DoubtHistories.UnheardIntent` is the run that gets there, `DoubtHistories.RetryForever` shows that
  retry and reconciliation then go round without end, and `DoubtHistories.AbandonEnds` that abandoning
  ends it. An operator can read such a state off the tables (`DoubtHistories.DoomedIsReadable`).
  ClickHouse gets there by a checkpoint insert whose reply is lost
  (`ClickHouseHistories.UnheardCheckpoint`).
- On a transactional backend the lost reply puts a FAILED_RETRYABLE row over a success
  (`TransactionalEngine.LostReplyMisleads`), and the next upgrade runs a second time
  (`TransactionalEngine.UpgradeTwice`). Over all plans with inverse rollbacks and all tables, the latest
  row tells the truth exactly when the rows bury no success but a baseline
  (`TransactionalEngine.RowsTellIff`).
- On ClickHouse a retry after an interruption means that the whole direction ran exactly when the last
  effect is there, or a guard refuses, or the remaining statements make up for it
  (`ClickHouseHistories.RetryInterrupted`). `ClickHouseHistories.MistakenRetry` is the run in which a
  guard that always holds lets a statement be skipped. For a plan: wherever it is stopped, retries are
  right if the guards refuse the tables without the effect or the rest makes up for it, and otherwise
  `ClickHouseStops.RetryStopped` has the database on which one goes wrong.
- Batched and single statement agree in their row count exactly when no matching row has NULL in its
  key (`Batches.CountsAgreeIff`); with NULL sorted last the loop can end normally and leave such a row
  out (`Batches.NullIsSkipped`). The design requires a non-null key, so this is the design's own
  condition.
- The newest-snapshot search sees every snapshot of the backend exactly when no lineage in the
  registry is cyclic, even outside the head's ancestry (`Snapshots.HeadReachesAll`,
  `Snapshots.IsolatedCycleIgnored`).
- Domain facts are matched by reference strings, so `T.n` may stand for column `n` of `T` or for a
  column named `T.n`. Facts and assignments can be trusted, on every expression and row, exactly when a
  table has no two such columns (`CheckerSoundness.FactsHoldIff`,
  `CheckerSoundness.AssignmentsHoldIff`).

Where code and documentation differ, the code was followed: an epoch's APPLIED_SUCCESS row is reused
by its rollback (the design calls it terminal, and its ROLLING_BACK status is never stored); `/*/` is
a complete comment for the splitter; a baseline event that fails on ClickHouse turns a success into a
failed run.

## Model

| member | source | states |
|---|---|---|
| `JournalHistory.EveryHistory` | dbwarden/data/execution.py:658-1142 | From an empty journal over any tables, after any sequence of runs and reconciliations under any errors and crashes: the first epoch began with those tables; a non-baseline APPLIED_SUCCESS means the tables are the plan's statements run once in order from where the epoch began, ROLLED_BACK that both directions were, and with inverse rollbacks the latest row tells the tables in terms of the initial ones; guards are trusted only for steps that a verified retry closed, none if there was none; no statement was sent twice; each sent statement has its checkpoint; "no side effects" means nothing of that epoch and direction was sent |
| `JournalHistory.CleanUpgrade` | dbwarden/data/execution.py:658-968 | Where nothing fails, a plan whose guards and insert claims hold is applied: APPLIED_SUCCESS, with the whole upgrade in the tables |
| `Nontransactional.Operate` | dbwarden/data/execution.py:658-1142 | Every history of commands keeps the journal invariant and the tables the journal began with, never sends a statement twice, and leaves ROLLED_BACK, ABANDONED, FAILED_FINAL and baseline rows as they are; without a verified retry no step is closed on trust; a checkpoint left open by an unheard commit stays, with the tables and checkpoints unchanged |
| `Nontransactional.Execute` | dbwarden/data/execution.py:658-997 | A run keeps the invariant however it ends; a command that is not admitted changes nothing; a new epoch opens only over nothing or over a rollback with reapply, and begins with the tables as they are; statements sent belong to the latest epoch, and once one was sent the run is not left FAILED_RETRYABLE; a run completes only if every guard and claim holds on the way, and without faults exactly then, and ran exactly the steps that were left, in order; it fails for ownership only where the first obstacle is a claimed row count that is not met, and without faults exactly there; without faults a failure leaves FAILED_FINAL for ownership, otherwise unknown if the direction had a checkpoint before or a statement has one now, and retryable if not; beside a checkpoint left by an unheard commit no plain run completes |
| `Nontransactional.WholeResult` | dbwarden/data/execution.py:710-747 | Outside a retry the steps that were left are the whole direction, so its result needs no trust in any guard |
| `Nontransactional.Attempt` | dbwarden/data/execution.py:751-968 | The guarded part of a run changes the journal only by its final row; an error it raises before anything could have happened has sent nothing; it succeeds only with every remaining step run once and every guard and claim met, raises an ownership error only at a claim that is not, and without faults these decide |
| `Nontransactional.RecordFailure` | dbwarden/data/execution.py:969-994 | The row of a failure, with the words a retry reads, is written once; the row stays as it was only if writing fails too; what status that is `Nontransactional.Execute` states |
| `Nontransactional.Reconcile` | dbwarden/data/execution.py:1000-1142 | An inspection answers NOT_STARTED exactly over an empty journal and otherwise shows a run that can be abandoned as unknown and any other by its status, and allows a retry exactly where the journal would go on with it; over a run not in doubt nothing changes; reconciliation sends nothing and opens no epoch; a retry is allowed only for a run in doubt, its own plan and full evidence, and without faults exactly then; it closes at most the step in doubt; abandoning works for runs in doubt, and without faults for all of them; the invariant holds after every decision and fault |
| `Nontransactional.Verify` | dbwarden/data/execution.py:1045-1133 | A verified retry is recorded only if every row of the latest run matches the plan, its inserts are proven, its operations complete and their after-guards pass, and without faults whenever they do |
| `NontransactionalSteps.Intend` | dbwarden/data/execution.py:899-916 | The checkpoint of the next statement is durable before the statement is sent, and it was never sent before |
| `NontransactionalSteps.PlainStatement` | dbwarden/data/execution.py:899-947 | One statement advances rows and effects together; an error that claims no effect sent nothing; whatever happens the invariant holds; it succeeds only if its claim can be made and is met, and without faults exactly then; an ownership error means the row count differs from the claim |
| `NontransactionalSteps.VerifyInsert` | dbwarden/data/execution.py:930-944 | The WRITE_VERIFIED mark commits only with an insert that affected the claimed number of rows |
| `NontransactionalSteps.CloseStep` | dbwarden/data/execution.py:948-962 | A step is marked done as a whole, in one commit, only if its after-guards pass on exactly its whole effect; without faults nothing else is needed |
| `NontransactionalSteps.LockedStep` | dbwarden/data/execution.py:801-871 | A locked rollback step is all or nothing behind committed intents: on success its guards and claims hold and the tables are the step run once; without faults they decide |
| `NontransactionalSteps.AdvanceStep` | dbwarden/data/execution.py:770-785 | A finished step is skipped and changes nothing, one in doubt is refused, and only the next one runs, once, if its guards and claims hold |
| `NontransactionalSteps.ValidateStepCheckpoints` | dbwarden/data/execution.py:519-534 | Exactly the rows that differ from the reviewed plan are refused, and a step counts as finished exactly when all its expected rows are there and done |
| `NontransactionalSteps.FinishedIsComplete` | dbwarden/data/execution.py:773-778 | Every step before the current one is recognised as finished |
| `NontransactionalSteps.CurrentIsIncomplete` | dbwarden/data/execution.py:777-783 | The current step never is, and without rows nothing of it was intended |
| `ReconcileSteps.WholeOrShort` | dbwarden/data/execution.py:1088-1101 | All checkpoints present, no unverified claim and passing after-guards mean the whole effect of the step is there |
| `ReconcileSteps.ReconcileKeeps` | dbwarden/data/execution.py:1054-1133 | Marking the rows of the latest run done keeps the invariant, and leaves nothing in doubt but what an unheard commit left |
| `JournalTheorems.SuccessIsReplay` | dbwarden/data/execution.py:963-968 | A non-baseline APPLIED_SUCCESS implies the tables are the upgrade run once, in order, from the epoch's origin |
| `JournalTheorems.RollbackIsReplay` | dbwarden/data/execution.py:963-968 | ROLLED_BACK implies upgrade and rollback were each run once, in order |
| `JournalTheorems.OriginsAgree` | dbwarden/data/execution.py:735-747 | With a rollback that undoes the upgrade, every epoch begins where the first began |
| `JournalTheorems.StatusDeterminesData` | dbwarden/data/execution.py:658-997 | With such a rollback, over any number of epochs, the latest row alone says whether the tables are upgraded or as they were before the first run |
| `JournalTheorems.StepsFormPrefix` | dbwarden/data/execution.py:770-783 | Steps with checkpoints are a prefix of the plan, and each but the last has exactly its expected rows, all done |
| `JournalTheorems.RowsFormSegment` | dbwarden/data/execution.py:899-915 | Within a step the checkpointed statements are an initial segment |
| `JournalTheorems.SettledIsDone` | dbwarden/data/execution.py:899-994 | Under APPLIED_SUCCESS, ROLLED_BACK or FAILED_RETRYABLE a checkpoint is unfinished if and only if the commit that wrote it, the first of a run that had found none, took effect without being heard of |
| `JournalTheorems.DoubtIsRecent` | dbwarden/data/execution.py:1015-1053 | An unfinished checkpoint belongs to the latest direction, and to the latest run unless the commit that wrote it went unheard, so reconciliation may look at that run's rows alone |
| `JournalTheorems.InsertIsOwned` | dbwarden/data/execution.py:822-870 | A WRITE_VERIFIED or DONE checkpoint of a claimed insert implies the insert is in the tables with the claimed row count, however it became so |
| `JournalTheorems.EpochDiscipline` | dbwarden/data/execution.py:739-747 | Epochs are numbered from 1 without gaps, and each but the latest ended rolled back and has a reapply event |
| `JournalTheorems.DoubtRefusesRetry` | dbwarden/data/execution.py:703-738 | A run that may have had effects, or that was ended for good, refuses every plain retry |
| `JournalTheorems.OpensOverRollback` | dbwarden/data/execution.py:694-746 | A new epoch opens if and only if nothing was run yet, or the latest run of this plan was rolled back and reapply is given |
| `JournalTheorems.ResumesOverProof` | dbwarden/data/execution.py:687-738 | Nothing is left to do if and only if an upgrade finds its success; a run goes on in the latest epoch if and only if that failed in this direction with proof, or is a success to be rolled back |
| `JournalTheorems.RollbackStepIsWhole` | dbwarden/data/execution.py:556-600 | A generated rollback step of inserts, updates and deletes is never found half done, in any state of any history |
| `JournalTheorems.EvidenceSufficesIff` | dbwarden/data/execution.py:1064-1101 | The evidence of a verified retry, digests included, implies the whole effect of the step exactly when its after-guards refuse the state with every checkpoint and a missing effect |
| `DoubtHistories.ShortIsReachable` | dbwarden/data/execution.py:899-929 | For every step without insert-ownership proof of its last statement, the store with all its checkpoints, reviewed digests and the last effect missing satisfies the journal invariant |
| `DoubtHistories.ReconcilesRightIff` | dbwarden/data/execution.py:1064-1101 | Over all stores of the invariant: full evidence for the step in doubt implies its whole effect if and only if its after-guards can tell |
| `DoubtHistories.MistakenRetry` | dbwarden/data/execution.py:899-1133 | The process dies between the checkpoint of the only statement and the statement; a guard that passes anyway lets reconciliation allow the retry, which completes with APPLIED_SUCCESS on unchanged tables: right exactly when the statement changes nothing |
| `DoubtHistories.UnheardIntent` | dbwarden/data/execution.py:899-994 | The commit of the first checkpoint takes effect and raises: the run fails with FAILED_RETRYABLE and "no side effects" beside an open checkpoint |
| `DoubtHistories.RetryForever` | dbwarden/data/execution.py:770-785 | From there every retry is admitted and fails on the open checkpoint, every reconciliation has nothing to inspect and allows the next, for any number of rounds, and the tables and checkpoints never change |
| `DoubtHistories.AbandonEnds` | dbwarden/data/execution.py:1029-1038 | Abandoning the run that such a retry leaves in doubt ends it: the row is ABANDONED, tables and checkpoints are unchanged, and every later command is refused |
| `DoubtHistories.DoomedIsReadable` | dbwarden/data/execution.py:1015-1053 | A store is in such a state exactly when it shows an open checkpoint that the latest run does not own, or beside FAILED_RETRYABLE |
| `DoubtHistories.DoomedIsUnheard` | dbwarden/data/execution.py:969-994 | Such a state comes only of an unheard commit, and its epoch is neither applied nor rolled back |
| `DoubtHistories.DisownedUpgrade` | dbwarden/data/execution.py:930-994 | An upgrade in which nothing fails but one claimed row count ends FAILED_FINAL, whichever statement of whichever step it is, and no later command, under any faults, changes the store |
| `DoubtHistories.FinalForever` | dbwarden/data/execution.py:703-707 | After an abandoned or finally failed run every command leaves the store as it is |
| `HashChains.ValidateChains` | dbwarden/data/execution.py:1766-1775 | The loop accepts exactly the rows in which every record names the last one of its key and seals its own fields |
| `HashChains.ValidIffChains` | dbwarden/data/execution.py:1733-1775 | Rows are accepted exactly when each key's records form one chain: interleaving does not matter |
| `HashChains.EndDeterminesChain` | dbwarden/data/execution.py:1652-1660 | Two accepted chains with the same last checksum are equal, record for record |
| `HashChains.NoRepeat` | dbwarden/data/execution.py:1652-1660 | No record occurs twice in an accepted chain |
| `HashChains.ValidatedIsInsertionOrder` | dbwarden/data/execution.py:1733-1775 | If the records in version order validate, that order is the order of insertion |
| `HashChains.AcceptedIsWhole` | dbwarden/data/execution.py:1538-1550 | After the check has passed, the row read with FINAL is the one inserted last |
| `HashChains.BackwardsIsRefused` | dbwarden/data/execution.py:1663-1666 | Records written with a clock that ran backwards between processes never validate |
| `HashChains.InsertInOrder` | dbwarden/data/execution.py:1553-1649 | A record that follows the last one of its key under a higher version keeps every chain whole and versions ascending across keys |
| `HashChains.InOrderValidates` | dbwarden/data/execution.py:1733-1775 | A table written in order by one process validates for every key, whatever order a query by version returns ties in |
| `HashChains.InOrderFinal` | dbwarden/data/execution.py:1538-1550 | And the row read with FINAL is the one inserted last, the one the next record must name |
| `ClickHouseLog.AppendSound` | dbwarden/data/execution.py:1576-1594 | Appending an allowed successor to a record of the latest epoch keeps the journal sound, even where a hidden insert has forked the chain, and touches no other epoch |
| `ClickHouseLog.OpenSound` | dbwarden/data/execution.py:1220-1240 | Opening the next epoch over a rolled-back one keeps the journal sound |
| `ClickHouseEngine.Server.DrawVersion` | dbwarden/data/execution.py:1663-1666 | Versions of one process strictly increase, whatever the clock shows, and are not below it |
| `ClickHouseEngine.Server.AppendRun` | dbwarden/data/execution.py:1576-1594 | A run record names its predecessor, is sealed, and is stored once, on an error perhaps not; if its predecessor is the last of its epoch a journal written in order stays so |
| `ClickHouseEngine.Server.OrderlyIsReadable` | dbwarden/data/execution.py:1733-1775 | A journal and a checkpoint table written in order by one process pass the engine's check |
| `ClickHouseEngine.Server.ReadRun` | dbwarden/data/execution.py:1164-1170 | What the engine reads after the check is the last record of the latest epoch, whose chain is whole |
| `ClickHouseEngine.Server.Start` | dbwarden/data/execution.py:1164-1243 | A command starts only on a journal that passes its check and admits it, appends to the latest epoch only if that is not closed, and opens the next only over a rollback with reapply; without faults every admitted command starts |
| `ClickHouseEngine.Server.SendOnce` | dbwarden/data/execution.py:1271-1305 | A statement with a checkpoint is never sent again and changes nothing; one without is sent right after its first checkpoint, and on success its effect is in the tables and its place in the line taken; "nothing possible" still means nothing was sent |
| `ClickHouseEngine.Server.SendStep` | dbwarden/data/execution.py:1264-1319 | A step succeeds only with its guards passed, none of its checkpoints open before, and exactly the statements without a checkpoint run, in order, each with a newest record that says done; without faults the guards on those tables decide; whatever fails the journal stays sound |
| `ClickHouseEngine.Server.Attempt` | dbwarden/data/execution.py:1246-1326 | An attempt succeeds only with every statement that had no checkpoint run in order, all guards passed on the way, and the final record last; on any error the held record can still take the record of the failure, and an attempt without possible effects has sent nothing |
| `ClickHouseEngine.Server.Execute` | dbwarden/data/execution.py:1145-1343 | A run keeps the journal sound and advances it as allowed, under any faults; it succeeds only if it was admitted, no checkpoint of its direction was open and every guard passed on the way, and without faults exactly then; a success, a retry included, turned the tables into the rest of the direction run from where its checkpoints stood; without faults a failure leaves a record in doubt if the direction had checkpoints or was given some, and a retryable one if not, and the journal stays readable |
| `ClickHouseEngine.Server.Verify` | dbwarden/data/execution.py:1388-1439 | A verified retry needs every left checkpoint reviewed and every touched operation's after-guards passed, and without faults nothing more |
| `ClickHouseEngine.Server.CloseMarks` | dbwarden/data/execution.py:1431-1439 | Every checkpoint of the operation that was still open gets a newest record that says done |
| `ClickHouseEngine.Server.Inspect` | dbwarden/data/execution.py:1346-1373 | An inspection passes the check first, shows a run in doubt as unknown and any other by its status, and allows a retry exactly where the journal would go on with the run |
| `ClickHouseEngine.Server.Reconcile` | dbwarden/data/execution.py:1346-1454 | Reconciliation appends at most one decision to an unfinished run, opens no epoch, gives no further statement a checkpoint and leaves the tables alone; a retry is allowed only with the evidence, and without faults exactly then |
| `ClickHouseEngine.Server.Operate` | dbwarden/data/execution.py:1145-1454 | Over any commands, processes, clocks and faults: nothing is sent twice; epochs are numbered from 1 without gaps, all but the latest end rolled back, and closed epochs keep their records; the tables are the effects of the checkpointed statements in plan order, epoch after epoch, all of them but the last one's unless reconciliation closed it |
| `ClickHouseEngine.NoEffectsIsTrue` | dbwarden/data/execution.py:1327-1343 | "No side effects", read from an accepted journal, means nothing of that epoch and direction was sent |
| `ClickHouseEngine.ClosingIsFinal` | dbwarden/data/execution.py:1185-1206 | In an accepted epoch nothing follows a rolled-back, abandoned or finally failed record |
| `ClickHousePlace.NothingMissing` | dbwarden/data/execution.py:1414-1439 | If the after-guards of every checkpoint that reconciliation closed could tell a missing effect, no effect is missing |
| `ClickHouseHistories.SuccessIsReplay` | dbwarden/data/execution.py:1145-1343 | With such guards, a non-baseline APPLIED_SUCCESS in an accepted journal means the tables are the initial ones with every earlier epoch run and undone and the whole upgrade run |
| `ClickHouseHistories.RollbackIsReplay` | dbwarden/data/execution.py:1145-1343 | And ROLLED_BACK that every epoch was run and undone in full |
| `ClickHouseHistories.AllOrAllButLast` | dbwarden/data/execution.py:1271-1305 | The effects of the step in progress are all of its checkpoints, or all but the last |
| `ClickHouseHistories.RetryAfterCrash` | dbwarden/data/execution.py:1346-1454 | A verified reconciliation and the retry after it succeed if and only if the after-guards of what the interrupted run touched pass, and every guard of the rest on the way; then exactly the statements without a checkpoint have been run |
| `ClickHouseHistories.RetryInterrupted` | dbwarden/data/execution.py:1145-1454 | Where the earlier checkpoints of the direction have their effects, success after an interruption means that the whole direction ran if and only if the last checkpoint's effect is there, or some guard refuses, or the rest of the direction makes up for the missing effect; so it always does for a plan whose guards refuse the tables without that effect or whose rest makes up for it |
| `ClickHouseStops.StoppedServer` | dbwarden/data/execution.py:1264-1343 | For every statement of every plan there is a database that satisfies the engine's invariant, in one epoch, in which a run died right after that statement's checkpoint and only the guards of its step and those of the direction stand between it and a successful retry |
| `ClickHouseStops.RetryStopped` | dbwarden/data/execution.py:1145-1454 | On that database reconciliation and retry are right if and only if the guards refuse the tables without the effect or the rest of the direction makes up for it: together with the row above, the exact condition on a plan |
| `ClickHouseHistories.MistakenRetry` | dbwarden/data/execution.py:1264-1439 | The only statement fails right after its checkpoint; its guard passes anyway, reconciliation closes the checkpoint, the retry skips it and records APPLIED_SUCCESS over unchanged tables: right exactly when the statement changes nothing |
| `ClickHouseHistories.UnheardCheckpoint` | dbwarden/data/execution.py:1290-1343 | The first checkpoint insert takes effect and raises: the journal, readable and admitting the upgrade again, says FAILED_RETRYABLE "no side effects" beside a checkpoint that is open, over unchanged tables |
| `ClickHouseHistories.OpenRefuses` | dbwarden/data/execution.py:1281-1289 | Beside an open checkpoint no run of its direction returns normally, whatever fails or does not |
| `ClickHouseHistories.CleanRoundTrip` | dbwarden/data/execution.py:1145-1343 | Where nothing fails, on any clock, a plan whose guards hold is applied in full and then rolled back in full, and the journal passes its check |
| `TransactionalEngine.Session.RunPlan` | dbwarden/data/execution.py:226-263 | The statements of every step run once, in order, inside the open transaction, and only if every guard holds on what the steps before leave; without faults exactly then |
| `TransactionalEngine.Session.RunForward` | dbwarden/data/execution.py:198-275 | An upgrade's transaction adds one successful row and the whole plan's effect, or nothing |
| `TransactionalEngine.Session.RunBackward` | dbwarden/data/execution.py:191-275 | A rollback's transaction turns the last row into ROLLED_BACK with the whole effect, or changes nothing |
| `TransactionalEngine.Session.PersistFailure` | dbwarden/data/execution.py:2777-2807 | One FAILED_RETRYABLE row more, or nothing; the tables are left alone and the journal keeps its meaning |
| `TransactionalEngine.EnterMeans` | dbwarden/data/execution.py:2400-2423 | Over a journal without half-done rows an upgrade gets in exactly if nothing was run, or this plan failed, or was rolled back and reapply is given; a rollback exactly over a success of this plan that is not a baseline; and an upgrade finds nothing to do exactly over its success |
| `TransactionalEngine.Session.Execute` | dbwarden/data/execution.py:115-293 | All or nothing: the tables are as before or with the whole direction run and its guards passed, a normal return says which, the journal still stands for them; nothing is written for another plan or where the last row does not admit the run; without faults an upgrade gets a row of its own exactly where it is admitted, a success where its guards hold and a retryable failure over unchanged tables where not, and a rollback takes effect exactly where it is admitted and its guards hold |
| `TransactionalEngine.Session.Operate` | dbwarden/data/execution.py:115-293 | Over any commands and faults the journal, replayed from its first row, yields the tables; all its rows are of one plan; APPLYING is never durable, so the abandon decision has nothing to act on; only a success that is rolled back ever changes; with inverse rollbacks rows that bury no success but a baseline are truthful |
| `TransactionalEngine.Session.Inspect` | dbwarden/data/execution.py:346-392 | An inspection shows the last row's status, and allows a retry exactly where the upgrade of its plan would get in |
| `TransactionalEngine.LatestRowIsTruthful` | dbwarden/data/execution.py:2400-2423 | With inverse rollbacks, whatever replies were lost, where no success but a baseline lies under later rows the tables are upgraded exactly when the latest row is a non-baseline success |
| `TransactionalEngine.RowsTellIff` | dbwarden/data/execution.py:115-293 | Over all plans with inverse rollbacks and all tables, journals with these rows are truthful if and only if they bury no success but a baseline (the only-if half needs tables that can count) |
| `TransactionalEngine.BuriedMisleads` | dbwarden/data/execution.py:277-291 | For any other rows: a consistent journal of a plan that adds one and takes it away, whose tables count every buried success and whose latest row is wrong |
| `TransactionalEngine.ReapplyBetween` | dbwarden/data/execution.py:186-203 | Between a rollback and any later row stands the event of an explicit reapply |
| `TransactionalEngine.LostReplyMisleads` | dbwarden/data/execution.py:277-291 | After a commit whose reply was lost the latest row is truthful exactly when the upgrade changes nothing, and the next upgrade is admitted |
| `TransactionalEngine.UpgradeTwice` | dbwarden/data/execution.py:198-291 | An upgrade whose commit takes effect and raises, and the next one: it is admitted and succeeds, the tables are upgraded twice, and the latest row is truthful exactly when that is the same as once |
| `Batches.ExecuteWindow` | dbwarden/data/batches.py:196-239 | One round covers exactly the matching rows of its window, keeps the tables equal to the single statement up to the new bound, never repeats a key, and leaves strictly fewer rows |
| `Batches.ExecuteBatches` | dbwarden/data/batches.py:169-240 | The loop yields the table, the inserted rows and the row count of the single statement on all rows whose key holds no NULL: each such row that matches holds what the change makes of it as it was, every other is untouched, even when the update changes the predicate's truth; it refuses a NULL key only where a probe meets one; with unique keys every command but the last touches exactly `size` rows and it issues n divided by the size, rounded up, commands for n matching rows |
| `Batches.WholeRowByRow` | dbwarden/data/batches.py:218-229 | The single statement changes each matching row by itself, and no other row and no key |
| `Batches.MatchingCounts` | dbwarden/data/batches.py:229-231 | Its row count is the number of matching rows |
| `Batches.InsertedCounts` | dbwarden/data/batches.py:222-229 | It inserts each row as often as matching rows select it |
| `Batches.CommandExtends` | dbwarden/data/batches.py:218-226 | A windowed update of the partly updated table equals the single update up to the window's last key |
| `Batches.CandidatesOfApplied` | dbwarden/data/batches.py:208-213 | Rows already covered are out of reach of the next probe, whatever the update did to the predicate |
| `Batches.WindowIsReady` | dbwarden/data/batches.py:214-218 | If no key of the window holds NULL, no row its command can touch does, wherever the backend sorts NULL |
| `Batches.WindowCount` | dbwarden/data/batches.py:208-231 | A command touches at least the rows of its window, and exactly those when keys are unique |
| `Batches.CountsAgreeIff` | dbwarden/data/batches.py:214-217 | Batched and single row counts agree if and only if no matching row has NULL in its key |
| `Batches.NullIsSkipped` | dbwarden/data/batches.py:211-217 | The loop run on two matching rows, one with a NULL key sorted last: it ends normally, counts one and leaves the other untouched |
| `Keys.OneHolds` | dbwarden/data/batches.py:322-332 | Without NULL exactly one of the two tuple comparisons that bound a window is true |
| `Keys.AboveTransitive` | dbwarden/data/batches.py:322-332 | Rows beyond a later bound are beyond every earlier one |
| `Keys.AboveByFirst` | dbwarden/data/batches.py:322-332 | The comparison of two keys is true exactly where the first column in which they differ has the greater value, and no NULL comes before or in it |
| `Keys.SortsByFirst` | dbwarden/data/batches.py:208-213 | The order of two keys is decided by the first column in which they differ: the lesser value first, NULL where the backend puts it |
| `Implication.SameAstAgrees` | dbwarden/data/compiler.py:234-241 | Expressions equal up to order and repetition in IN lists have the same value, or fail together, on every row |
| `Implication.ImpliesSound` | dbwarden/data/compiler.py:244-259 | If the prover accepts, every row that makes the domain TRUE makes the predicate TRUE, or evaluating it fails |
| `ImplicationExact.ImpliesExactly` | dbwarden/data/compiler.py:244-259 | For a goal that is a disjunction of plain conditions, such as the coverage of a case, the prover accepts if and only if the goal follows from the domain by AND and OR alone, whatever the conditions mean |
| `Implication.CoverageHolds` | dbwarden/data/compiler.py:262-275 | Where the computed coverage is TRUE, the case or mapping without ELSE takes a branch |
| `CheckerSoundness.NonNullSound` | dbwarden/data/compiler.py:292-308 | A column the domain declares non-null is not NULL on any row of the domain, over a table with unambiguous references |
| `CheckerSoundness.InferSound` | dbwarden/data/compiler.py:322-450 | On every row that respects the column types and the domain, evaluation gives no type error and a value of the inferred family, NULL only if inferred nullable, for all operators |
| `CheckerSoundness.AssignmentSound` | dbwarden/data/compiler.py:453-472 | An accepted assignment never puts NULL into a NOT NULL column nor a value of an incompatible family |
| `CheckerExact.OperatorExact` | dbwarden/data/compiler.py:349-419 | For every operator and function: its type is nullable exactly where values of its operands' types make it NULL on some backend; without the literal NULL among its operands it is refused exactly where such values clash, and its family is the least that holds the results; COALESCE takes the least family that holds its arguments |
| `CheckerExact.CaseExact` | dbwarden/data/compiler.py:420-434 | A CASE is accepted exactly if its conditions are boolean and one family holds its results, has the least such family, and is nullable exactly where values make it NULL, of those that take a branch if the domain covers it |
| `CheckerExact.MappingExact` | dbwarden/data/compiler.py:435-449 | A mapping likewise, where neither its source nor a key is the literal NULL |
| `CheckerExact.MergeIsLeast` | dbwarden/data/compiler.py:311-319 | Families are merged to the least one that holds every value of each, and refused exactly where there is none |
| `CheckerExact.InferSane` | dbwarden/data/compiler.py:322-450 | Over columns of declared types no expression is given a type that no value has |
| `CheckerExact.AssignmentExact` | dbwarden/data/compiler.py:453-472 | An assignment is accepted if and only if the expression can be typed and the target takes every value of that type, NULL included |
| `CheckerSoundness.PartialSound` | dbwarden/data/compiler.py:1195-1206 | An accepted partial transformation never falls through a case or mapping without ELSE, at any depth, on any row of its domain |
| `CheckerSoundness.FactsHoldIff` | dbwarden/data/compiler.py:292-308 | The non-null facts of every domain hold on every row if and only if no column's name is the table's name, a dot and another column's name; references are those that can be built, dotted names only with their table |
| `CheckerSoundness.AssignmentsHoldIff` | dbwarden/data/compiler.py:453-472 | Under the same condition, and no other, every accepted assignment is safe on every row |
| `CheckerSoundness.MisleadingNames` | dbwarden/data/compiler.py:207-213 | The accepted assignment, over the column map built from the model, that puts NULL into a NOT NULL column when two columns are so named |
| `Ordering.OrderTargets` | dbwarden/data/compiler.py:1518-1531 | The loop succeeds exactly when the dependencies have no cycle; then every target comes once, after all it depends on, sorted by dependency depth and name |
| `Ordering.OrderIsSettled` | dbwarden/data/compiler.py:1518-1531 | The dependencies alone determine that order |
| `Names.BeforeByFirst` | dbwarden/data/compiler.py:1524-1527 | Names are ordered by the first character in which they differ, a prefix first |
| `Graphs.StuckHasCycle` | dbwarden/data/compiler.py:1524-1527 | If everyone left depends on someone left, there is a cycle |
| `Graphs.AcyclicIffOrdered` | dbwarden/data/compiler.py:1518-1531 | A dependency order exists exactly when there is no cycle |
| `Lineages.ValidateAncestry` | dbwarden/data/snapshots.py:70-99 | The walk accepts exactly the ancestries in which every entry is well formed, every parent known, and no entry its own ancestor, although visited entries are skipped |
| `Lineages.Skip` | dbwarden/data/snapshots.py:74-77 | An entry met again outside its own ancestry is already finished, so skipping it misses no cycle |
| `Snapshots.Resolve` | dbwarden/data/snapshots.py:197-231 | A registered snapshot resolves exactly when identities are valid and unique, its ancestry is sound, its backend right and its state intact |
| `Snapshots.Descend` | dbwarden/data/compiler.py:906-917 | The worklist collects exactly what the head descends from, and fails only on an unsound ancestry |
| `Snapshots.Descends` | dbwarden/data/compiler.py:940-948 | The walk without a visited set ends on every accepted lineage, and finds exactly the ancestors |
| `Snapshots.UniqueMaximalIsMaximum` | dbwarden/data/compiler.py:936-955 | One candidate without a newer one is the same as a candidate that descends from all others |
| `Snapshots.LatestCompatible` | dbwarden/data/compiler.py:869-955 | A snapshot is returned exactly when there is one sound line with a compatible snapshot that descends from all other compatible ones, and it is that one |
| `Snapshots.MaximumIsUnique` | dbwarden/data/compiler.py:951-955 | That snapshot is unique |
| `Snapshots.HeadReachesAll` | dbwarden/data/compiler.py:891-917 | The single head reaches every snapshot of the backend exactly when no lineage is cyclic |
| `Snapshots.IsolatedCycleIgnored` | dbwarden/data/compiler.py:891-917 | A registry on which a compatible snapshot outside the head's ancestry is passed over |
| `Splitter.SplitStatements` | dbwarden/sql.py:18-74 | The character loop returns the stripped, non-empty pieces that the token-level lexer cuts |
| `Splitter.StepKeeps` | dbwarden/sql.py:26-71 | Every step of the loop but a cut leaves the rest of the text lexed as before |
| `Splitter.JoinPieces` | dbwarden/sql.py:67-73 | The raw pieces joined with semicolons are the input |
| `Splitter.CutsAreOpenSemicolons` | dbwarden/sql.py:19 | The text is cut at exactly the semicolons outside quotes and comments |
| `Splitter.QuotedIsKept` | dbwarden/sql.py:44-59 | No semicolon between single quotes, double quotes or backticks cuts, doubled and escaped quotes included |
| `Splitter.LineCommentIsKept` | dbwarden/sql.py:29-34 | No semicolon after two dashes cuts before the end of the line |
| `Splitter.BlockCommentIsKept` | dbwarden/sql.py:35-43 | No semicolon inside a block comment cuts |
| `Splitter.CodeIsCut` | dbwarden/sql.py:58-71 | Anywhere else a semicolon cuts, and every other character stays in its piece |
| `Splitter.StripIsExact` | dbwarden/sql.py:68-73 | A statement is its text without the space around it |
| `Splitter.SpaceIsUnseen` | dbwarden/sql.py:65-73 | Of ASCII, what is stripped is no visible character, and includes blank, tab and line ends |
| `Splitter.StatementIsAtomic` | dbwarden/sql.py:18-74 | Splitting any returned statement again returns just that statement |
| `Merges.MergeSourcesPermutes` | dbwarden/data/advanced.py:67-93 | Sources are accepted exactly when there are two or more with distinct priorities; the result is sorted by priority and does not depend on the order of declaration |
| `Merges.EqualGuardIff` | dbwarden/data/advanced.py:442-450 | The require_equal guard passes exactly when all contributions of the group are the same, NULL included |
| `Merges.EqualIsEachValue` | dbwarden/data/advanced.py:434-450 | Under it the merged field is the value of every contribution |
| `Merges.RankingStartsWithLeast` | dbwarden/data/advanced.py:416-432 | Under the uniqueness guard every ranking starts with the one row of least priority and identity |
| `Merges.WinnerIsFirst` | dbwarden/data/advanced.py:434-436 | The aggregate over ranks is the value of that row |
| `Merges.WinnerField` | dbwarden/data/advanced.py:416-440 | Under `winner` the merged field is the value of the group's one row of least priority and identity, whatever that value is |
| `Merges.MergedWinner` | dbwarden/data/advanced.py:308-440 | That row is of the source of least priority that has a row of the group, and of least identity there |
| `Merges.EqualField` | dbwarden/data/advanced.py:441-450 | Under `require_equal`, its guard passed, the merged field is the value of every row of the group |
| `Merges.BoundField` | dbwarden/data/advanced.py:437-443 | `min` and `max` are the value of a row of the group and bound every other |
| `Merges.NullField` | dbwarden/data/advanced.py:437-443 | An aggregate is NULL exactly when all values of the group are |
| `Merges.AdditiveField` | dbwarden/data/advanced.py:437-443 | `sum` and the count add up over any division of the rows, and of one row are its value and whether it has one |
| `Merges.CountedField` | dbwarden/data/advanced.py:437-443 | The count is the number of rows of the group that have a value |
| `Merges.FieldIsDetermined` | dbwarden/data/advanced.py:416-452 | No order of rows and no choice among rankings changes a merged field |
| `Merges.GuardsMakeRanksUnique` | dbwarden/data/advanced.py:308-323 | The per-source guards and distinct priorities already make ranks unique within a group |
| `Merges.MergeIsOrderIndependent` | dbwarden/data/advanced.py:416-455 | Permuting sources or rows leaves every merged field unchanged |
| `Merges.CountsAddUp` | dbwarden/data/advanced.py:437-455 | The merged counts of the groups add up to the contributions that are not NULL |

## Left out

- Concurrent runners and concurrent application writes: a caller holds the migration lock, so one command acts at a time.
- More than one migration in a journal: the rows of one migration are modelled, as every query filters by it.
- The text of statements, dialects, drivers and locks: a statement is a function on the user tables with a row count; locks, hooks, lock queries and duration checks are actions that can fail.
- Half-done statements: a statement that fails outside batches has its whole effect or none, so DML that fails midway on a table without transactions, which leaves part of its rows changed, is outside the conditions above.
- TransactionalEngine.Session.Execute: takes `baseline` of upgrades only; the migrate command asks for no other baseline (dbwarden/commands/migrate/__init__.py:180).
- Identity edges: recording and verifying them is an action that can fail; their hashes and tables are not modelled.
- JSON, SHA-256 and HMAC: checksums are injective (structures, or an arbitrary collision-free function), and a plan is determined by its checksum.
- Timestamps, error texts, `last_operation` and event details: of an error text only the leading words that retries test are kept.
- Transactions that the caller opened, and backend settings that are verified before a run.
- NontransactionalSteps.LockedStep: requires the step's statements to stay in the open transaction, which the engine establishes by refusing tables that are not InnoDB.
- ClickHouse mutation polling, background merges and replication: the table is an append-only log, and a record with its event is one action.
- Batches.ExecuteBatches: has no time or replication-lag limit; where the source raises, the caller's transaction rolls the whole statement back.
- Key values are integers; only their order matters to the loop. A driver that reports no row count is not modelled.
- CheckerSoundness.InferSound: is for one table with unambiguous references (`CheckerSoundness.AssignmentsHoldIff` shows that nothing less will do), the argument counts the language fixes, a literal delimiter, index and unit, and casts that keep non-nullness; division by zero and other failures are outcomes of their own, not NULL.
- Expressions are evaluated by definitions of this project: integer division truncates (a backend's may not), AND and OR fail if either side fails, and lowering to SQL text is not modelled.
- Snapshot states: loading, checksums and table lookup are two flags of an entry, intact and compatible.
- The `avg` merge rule, the stage and ledger tables of a merge, and the byte encoding of identities: ranks are compared as keys.
- The compiler's other checks (overlap, policies, generated columns), row loading, plan emission, plugins, CLI and configuration: each is settled by reading a branch.
