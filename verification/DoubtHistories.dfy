/** Where the journal of a nontransactional backend misleads: the exact conditions, and histories that show them. */
module DoubtHistories {
  import opened Options
  import opened Plans
  import opened Journal
  import opened JournalSteps
  import opened JournalTheorems
  import opened ReconcileSteps
  import opened Connections
  import opened NontransactionalSteps
  import opened Nontransactional

  // ---------- a store in which an effect is missing ----------

  function PlanKeys(plan: Plan): set<Key> {
    set d, i, j | d in {Upgrade, Rollback} && 0 <= i < |plan.Steps(d)| && -1 <= j < |plan.Steps(d)[i].statements| ::
      Key(1, d, plan.Steps(d)[i].id, j)
  }

  /** The checkpoints the first epoch has when the step at `k` is intended in full. */
  ghost predicate Written(plan: Plan, d: Direction, k: nat, key: Key)
    requires k < |plan.Steps(d)|
  {
    Reached(plan.Steps(key.direction), key.op, key.index,
            Position(plan, 1, d, k, |plan.Steps(d)[k].statements|, key.epoch, key.direction))
  }

  lemma WrittenInPlan(plan: Plan, d: Direction, k: nat, key: Key)
    requires k < |plan.Steps(d)| && Written(plan, d, k, key)
    ensures key in PlanKeys(plan)
    ensures
      var i := IndexOf(plan.Steps(key.direction), key.op);
      i >= 0 && DigestOf(plan.Steps(key.direction)[i], key.direction, key.index).Some?
  {
    var i := IndexOf(plan.Steps(key.direction), key.op);
    assert key == Key(1, key.direction, plan.Steps(key.direction)[i].id, key.index);
  }

  ghost function ShortCheckpoint(plan: Plan, d: Direction, k: nat, key: Key): Checkpoint
    requires k < |plan.Steps(d)| && Written(plan, d, k, key)
  {
    WrittenInPlan(plan, d, k, key);
    var i := IndexOf(plan.Steps(key.direction), key.op);
    var step := plan.Steps(key.direction)[i];
    if key.direction == d && i == k then ShortRow(d, step, key.index, 1)
    else Checkpoint(0, DigestOf(step, key.direction, key.index).value, Done)
  }

  ghost function ReceiptsFor(keys: set<Key>): (r: seq<Receipt>)
    ensures forall key :: key in keys ==> HasReceipt(r, key)
  {
    if keys == {} then []
    else
      var key :| key in keys;
      var rest := ReceiptsFor(keys - {key});
      var r := [Receipt(key, 0, Some(0))] + rest;
      assert forall other :: other in keys ==> HasReceipt(r, other) by {
        forall other | other in keys ensures HasReceipt(r, other) {
          if other == key {
            assert r[0] in r;
          } else {
            assert other in keys - {key} && HasReceipt(rest, other);
            var receipt :| receipt in rest && receipt.key == other && receipt.claimed == Some(receipt.affected);
            assert receipt in r;
          }
        }
      }
      r
  }

  /** Where the step at `k` begins when every step before it ran. */
  ghost function EntryOf(plan: Plan, d: Direction, k: nat, start: Data): Data
    requires k <= |plan.Steps(d)|
  {
    RunSteps(plan.Steps(d), k, Base(plan, d, start))
  }

  /** The run of the step at `k` ended with all its checkpoints written and the last effect missing. */
  ghost function ShortStore(plan: Plan, d: Direction, k: nat, start: Data): Store
    requires k < |plan.Steps(d)| && plan.Steps(d)[k].statements != []
  {
    var step := plan.Steps(d)[k];
    var checkpoints := map key | key in PlanKeys(plan) && Written(plan, d, k, key) :: ShortCheckpoint(plan, d, k, key);
    Store([Run(1, plan.checksum, UnknownRequiresReconciliation, 1, d, PossibleSideEffects, false, start)],
          checkpoints, [], Prefix(step.statements, Short(d, step), EntryOf(plan, d, k, start)), ReceiptsFor(PlanKeys(plan)))
  }

  ghost function ShortProgress(plan: Plan, d: Direction, k: nat, start: Data): Progress
    requires k < |plan.Steps(d)| && plan.Steps(d)[k].statements != []
  {
    var step := plan.Steps(d)[k];
    Progress(k, |step.statements|, Short(d, step), EntryOf(plan, d, k, start), 1, false, {})
  }

  lemma ShortRowsOf(plan: Plan, d: Direction, k: nat, start: Data, key: Key)
    requires k < |plan.Steps(d)| && plan.Steps(d)[k].statements != [] && UniqueIds(plan.Steps(d))
    ensures key in ShortStore(plan, d, k, start).checkpoints <==> Written(plan, d, k, key)
    ensures Written(plan, d, k, key) ==> ShortStore(plan, d, k, start).checkpoints[key] == ShortCheckpoint(plan, d, k, key)
  {
    if Written(plan, d, k, key) {
      WrittenInPlan(plan, d, k, key);
    }
  }

  lemma CurrentWritten(plan: Plan, d: Direction, k: nat, i: nat)
    requires k < |plan.Steps(d)| && UniqueIds(plan.Steps(d)) && i < |plan.Steps(d)[k].statements|
    ensures
      var key := Key(1, d, plan.Steps(d)[k].id, i);
      Written(plan, d, k, key) && ShortCheckpoint(plan, d, k, key) == ShortRow(d, plan.Steps(d)[k], i, 1)
  {
    IndexOfUnique(plan.Steps(d), k);
  }

  lemma ShortMarks(plan: Plan, d: Direction, k: nat, start: Data)
    requires k < |plan.Steps(d)| && plan.Steps(d)[k].statements != [] && UniqueIds(plan.Steps(d))
    ensures
      var s := ShortStore(plan, d, k, start);
      && Shape(s.checkpoints, plan, 1, d, k, |plan.Steps(d)[k].statements|)
      && Marks(s.checkpoints, plan, 1, d, k)
      && Owned(s.checkpoints, s.receipts, plan)
  {
    var s := ShortStore(plan, d, k, start);
    forall key ensures key in s.checkpoints <==> Written(plan, d, k, key) {
      ShortRowsOf(plan, d, k, start, key);
    }
    forall key | key in s.checkpoints
      ensures Digested(plan, key, s.checkpoints[key].digest) && HasReceipt(s.receipts, key)
      ensures CurrentStep(plan, 1, d, k, key) || s.checkpoints[key].mark == Done
    {
      ShortRowsOf(plan, d, k, start, key);
      WrittenInPlan(plan, d, k, key);
    }
  }

  /** Such a store satisfies the journal invariant, when no insert-ownership proof tells that the effect is missing. */
  lemma ShortIsReachable(plan: Plan, d: Direction, k: nat, start: Data)
    requires k < |plan.Steps(d)| && plan.Steps(d)[k].statements != [] && Unproven(d, plan.Steps(d)[k])
    requires UniqueIds(plan.upgrade) && UniqueIds(plan.rollback)
    ensures Inv(ShortStore(plan, d, k, start), plan, ShortProgress(plan, d, k, start))
  {
    hide Inv, Shape, Marks, Owned, Unfinished, UniqueIds, Unproven, Short, Trusted, Written;
    var s, p, step := ShortStore(plan, d, k, start), ShortProgress(plan, d, k, start), plan.Steps(d)[k];
    ShortMarks(plan, d, k, start);
    forall i | 0 <= i < |step.statements| ensures
      var key := Key(1, d, step.id, i);
      key in s.checkpoints && s.checkpoints[key] == ShortRow(d, step, i, 1)
    {
      CurrentWritten(plan, d, k, i);
      ShortRowsOf(plan, d, k, start, Key(1, d, step.id, i));
    }
    ShortIsPossible(s.checkpoints, 1, d, step, p);
    Assemble(s, plan, p);
  }

  /** And passing after-guards are all that a verified retry asks of it. */
  lemma ShortIsEvidenced(plan: Plan, d: Direction, k: nat, start: Data)
    requires k < |plan.Steps(d)| && plan.Steps(d)[k].statements != [] && Unproven(d, plan.Steps(d)[k])
    requires UniqueIds(plan.upgrade) && UniqueIds(plan.rollback)
    requires plan.Steps(d)[k].after != [] && Passes(plan.Steps(d)[k].after, ShortStore(plan, d, k, start).data)
    ensures Evidenced(ShortStore(plan, d, k, start), plan)
  {
    hide Passes, Unproven, Short;
    var s, step := ShortStore(plan, d, k, start), plan.Steps(d)[k];
    var current := CurrentRows(s, Last(s));
    IndexOfUnique(plan.Steps(d), k);
    forall i | 0 <= i < |step.statements| ensures Key(1, d, step.id, i) in current {
      CurrentWritten(plan, d, k, i);
      ShortRowsOf(plan, d, k, start, Key(1, d, step.id, i));
    }
    forall key | key in current
      ensures RowProven(s, plan, key) && OperationProven(s, plan, current, 1, key.direction, key.op)
      ensures GuardRowDone(s.checkpoints, plan, current, 1, key.direction, key.op)
    {
      ShortRowsOf(plan, d, k, start, key);
      assert key.direction == d && IndexOf(plan.Steps(d), key.op) == k;
      ShortIsClaimed(plan, d, k, key.index);
    }
  }

  lemma ShortIsClaimed(plan: Plan, d: Direction, k: nat, i: nat)
    requires k < |plan.Steps(d)| && i < |plan.Steps(d)[k].statements| && Unproven(d, plan.Steps(d)[k])
    ensures plan.Steps(d)[k].statements[i].claim.Some? ==> ShortRow(d, plan.Steps(d)[k], i, 1).mark != Pending
  {
  }

  // ---------- the exact condition ----------

  /** Whenever the evidence for a verified retry is there while the step at `k` is in doubt, its whole effect is there. */
  ghost predicate ReconcilesRight(plan: Plan, d: Direction, k: nat, start: Data)
    requires k < |plan.Steps(d)|
  {
    forall s: Store, p: Progress :: InDoubtAt(s, p, plan, d, k, start) && Evidenced(s, plan) ==>
      s.data == RunStep(plan.Steps(d)[k], EntryOf(plan, d, k, start))
  }

  ghost predicate InDoubtAt(s: Store, p: Progress, plan: Plan, d: Direction, k: nat, start: Data)
    requires k < |plan.Steps(d)|
  {
    && s.runs != [] && Inv(s, plan, p) && Last(s).direction == d
    && p.steps == k && p.rows > 0 && p.owner == Last(s).runId && p.entry == EntryOf(plan, d, k, start)
  }

  lemma DoubtIsWhole(s: Store, p: Progress, plan: Plan, d: Direction, k: nat, start: Data)
    requires k < |plan.Steps(d)| && InDoubtAt(s, p, plan, d, k, start) && Evidenced(s, plan)
    requires Discriminates(d, plan.Steps(d)[k], EntryOf(plan, d, k, start))
    ensures s.data == RunStep(plan.Steps(d)[k], EntryOf(plan, d, k, start))
  {
    hide Inv, Discriminates, EntryOf;
    assert AllProven(s, plan);
    InDoubt(s, plan, p);
    StepFacts(s, plan, p);
    DoubtProven(s, plan, p);
    Facts(s, plan, p);
    WholeOrShort(s.checkpoints, |s.runs|, d, plan.Steps(d)[k], p, s.data);
  }

  /** Reconciliation is right about a step, in every state of the journal, exactly when its guards can tell. */
  lemma ReconcilesRightIff(plan: Plan, d: Direction, k: nat, start: Data)
    requires k < |plan.Steps(d)| && UniqueIds(plan.upgrade) && UniqueIds(plan.rollback)
    ensures ReconcilesRight(plan, d, k, start) <==> Discriminates(d, plan.Steps(d)[k], EntryOf(plan, d, k, start))
  {
    hide Inv, Evidenced, UniqueIds, EntryOf;
    if Discriminates(d, plan.Steps(d)[k], EntryOf(plan, d, k, start)) {
      forall s: Store, p: Progress | InDoubtAt(s, p, plan, d, k, start) && Evidenced(s, plan)
        ensures s.data == RunStep(plan.Steps(d)[k], EntryOf(plan, d, k, start))
      {
        DoubtIsWhole(s, p, plan, d, k, start);
      }
    } else {
      ShortIsReachable(plan, d, k, start);
      ShortIsEvidenced(plan, d, k, start);
      assert InDoubtAt(ShortStore(plan, d, k, start), ShortProgress(plan, d, k, start), plan, d, k, start);
    }
  }

  // ---------- the histories ----------

  function Script(n: nat, last: Fault): (faults: seq<Fault>)
    requires last.FailsAfter? || last.DiesAfter?
    ensures CutAt(faults, n, last)
  {
    if n == 0 then [last] else [NoFault] + Script(n - 1, last)
  }

  /** One step of one statement, and guards that pass although the statement has not run. */
  ghost predicate Gullible(plan: Plan, d: Data) {
    && |plan.upgrade| == 1 && UniqueIds(plan.rollback)
    && var step := plan.upgrade[0];
    && step.before == [] && |step.statements| == 1 && step.statements[0].claim.None?
    && step.after != [] && Passes(step.after, d)
  }

  /** The crash between the intent of the only statement and the statement leaves all the evidence of a finished step. */
  lemma CrashIsEvidence(s: Store, plan: Plan, p: Progress)
    requires Inv(s, plan, p) && s.runs != [] && Last(s).direction == Upgrade && |s.runs| == 1
    requires p.steps == 0 && p.rows == 1 && p.effects == 0 && p.owner == Last(s).runId
    requires Gullible(plan, p.entry)
    ensures Evidenced(s, plan) && s.data == p.entry
  {
    hide Passes, Owned, Epochs, Reapplied, StatusHolds;
    InDoubt(s, plan, p);
    StepFacts(s, plan, p);
    var current, key := CurrentRows(s, Last(s)), KeyAt(s, plan, p, 0);
    IndexOfUnique(plan.upgrade, 0);
    assert key in current;
    forall other | other in current ensures other == key {
      assert Reached(plan.Steps(other.direction), other.op, other.index, Position(plan, 1, Upgrade, 0, 1, other.epoch, other.direction));
    }
    assert RowProven(s, plan, key);
    assert OperationProven(s, plan, current, 1, Upgrade, key.op);
  }

  lemma SingleStep(plan: Plan, d: Data)
    requires |plan.upgrade| == 1 && |plan.upgrade[0].statements| == 1
    ensures RunAll(plan.upgrade, d) == plan.upgrade[0].statements[0].effect(d)
    ensures UniqueIds(plan.upgrade)
  {
    assert RunSteps(plan.upgrade, 0, d) == d;
    assert Prefix(plan.upgrade[0].statements, 0, d) == d;
  }

  /** The run of a plan was cut off between the checkpoint of its only statement and the statement. */
  ghost predicate BeforeEffect(db: Connection, plan: Plan, catalog: string -> Plan, start: Data)
    reads db
  {
    && Sound(db, catalog) && db.faults == [] && db.durable.data == start
    && |db.durable.runs| == 1 && Last(db.durable).status == Applying && Last(db.durable).direction == Upgrade
    && Last(db.durable).checksum == plan.checksum
    && db.progress == Progress(0, 1, 0, start, Last(db.durable).runId, false, {})
  }

  method CutOffFirst(empty: Store, plan: Plan, ghost catalog: string -> Plan) returns (db: Connection, first: Outcome)
    requires empty.runs == [] && empty.checkpoints == map[] && empty.receipts == []
    requires plan == catalog(plan.checksum) && UniqueIds(plan.upgrade) && Gullible(plan, empty.data)
    ensures fresh(db) && first == Died && BeforeEffect(db, plan, catalog, empty.data) && MayRetry(db.durable, Some(plan))
  {
    hide Inv, Evidenced, Passes, UniqueIds, Recorded, RunAll, Pinned, StillDoomed, CutAt;
    db := new Connection(empty, Script(13, DiesAfter));
    assert Admissible(empty, plan, Upgrade, false);
    first := Execute(db, plan, Upgrade, false, false, catalog);
    CrashIsEvidence(db.durable, plan, db.progress);
  }

  /** A verified retry with nothing left to do. */
  method RetryNothing(db: Connection, plan: Plan, ghost start: Data, ghost catalog: string -> Plan)
    returns (verdict: Verdict, second: Outcome)
    requires plan == catalog(plan.checksum) && UniqueIds(plan.upgrade) && |plan.upgrade| == 1
    requires BeforeEffect(db, plan, catalog, start) && MayRetry(db.durable, Some(plan))
    modifies db
    ensures verdict == RetryAllowed && second == Completed(AppliedSuccess)
    ensures db.durable.runs != [] && Last(db.durable).status == AppliedSuccess && !Last(db.durable).baseline
    ensures db.durable.data == start
  {
    hide Inv, Evidenced, UniqueIds, Recorded, Pinned, StillDoomed, CutOff, MayRetry, StepPasses;
    verdict := Reconcile(db, Some(plan), true, VerifiedRetry, catalog);
    RunsNumbered(db.durable, plan, db.progress);
    assert WillRun(db.durable, db.progress, plan, Upgrade, false, false);
    second := Execute(db, plan, Upgrade, false, false, catalog);
  }

  /**
   * How a verified reconciliation goes wrong: the process dies between the checkpoint of the only statement and
   * the statement. The guards pass as they would afterwards, the retry finds nothing left to do, and the journal
   * says APPLIED_SUCCESS of user tables that the statement never reached.
   */
  method MistakenRetry(empty: Store, plan: Plan, ghost catalog: string -> Plan)
    returns (db: Connection, first: Outcome, verdict: Verdict, second: Outcome)
    requires empty.runs == [] && empty.checkpoints == map[] && empty.receipts == []
    requires plan == catalog(plan.checksum) && Gullible(plan, empty.data)
    ensures first == Died && verdict == RetryAllowed && second == Completed(AppliedSuccess)
    ensures db.durable.runs != [] && Last(db.durable).status == AppliedSuccess && !Last(db.durable).baseline
    ensures db.durable.data == empty.data
    ensures db.durable.data == RunAll(plan.upgrade, empty.data) <==> plan.upgrade[0].statements[0].effect(empty.data) == empty.data
  {
    hide Gullible, BeforeEffect, MayRetry, UniqueIds, RunAll;
    GullibleMeans(plan, empty.data);
    SingleStep(plan, empty.data);
    db, first := CutOffFirst(empty, plan, catalog);
    verdict, second := RetryNothing(db, plan, empty.data, catalog);
  }

  lemma GullibleMeans(plan: Plan, d: Data)
    requires Gullible(plan, d)
    ensures |plan.upgrade| == 1 && |plan.upgrade[0].statements| == 1
  {
  }

  // ---------- the lost reply ----------

  /** What an operator sees of a doomed store: an open checkpoint that the latest row has no place for. */
  lemma DoomedIsReadable(s: Store, plan: Plan, p: Progress)
    requires s.runs != [] && Inv(s, plan, p)
    ensures Doomed(s, p) <==>
      exists key ::
        && key in s.checkpoints && s.checkpoints[key].mark != Done
        && (s.checkpoints[key].runId != Last(s).runId || Last(s).status == FailedRetryable)
  {
    hide Inv;
    if p.rows > 0 {
      OpenRow(s, plan, p);
    }
    forall key | key in s.checkpoints && s.checkpoints[key].mark != Done
      ensures p.rows > 0 && s.checkpoints[key].runId == p.owner
    {
      DoubtIsRecent(s, plan, p, key);
    }
  }

  /** It comes only of a commit that was not heard of, and the epoch is then never applied or rolled back. */
  lemma DoomedIsUnheard(s: Store, plan: Plan, p: Progress)
    requires Inv(s, plan, p) && Doomed(s, p)
    ensures p.unheard && Last(s).status != RolledBack && !(Last(s).status == AppliedSuccess && !Last(s).baseline)
  {
    hide Trusted, Shape, Marks, Owned, Epochs, Reapplied, Unfinished;
  }

  /**
   * The commit of the first checkpoint takes effect and its reply is lost. The run lives on, believes that
   * nothing has happened, and says so in the journal.
   */
  method UnheardIntent(empty: Store, plan: Plan, ghost catalog: string -> Plan) returns (db: Connection, first: Outcome)
    requires empty.runs == [] && empty.checkpoints == map[] && empty.receipts == []
    requires plan == catalog(plan.checksum) && UniqueIds(plan.upgrade)
    requires plan.upgrade != [] && Unguarded(Upgrade, plan.upgrade[0])
    ensures fresh(db) && first == Failed(OtherError)
    ensures Retryable(db, plan, catalog) && Last(db.durable).error == NoSideEffects
    ensures LeftOpen(db.durable) && db.durable.data == empty.data
  {
    hide Inv, UniqueIds, Recorded, RunAll, Pinned, StillDoomed, Unguarded;
    db := new Connection(empty, Script(13, FailsAfter));
    assert Admissible(empty, plan, Upgrade, false);
    first := Execute(db, plan, Upgrade, false, false, catalog);
    SettledIsDone(db.durable, plan, db.progress);
    NothingRan(db.durable, plan, db.progress);
  }

  lemma NothingRan(s: Store, plan: Plan, p: Progress)
    requires s.runs != [] && Inv(s, plan, p) && p.rows > 0 && p.effects == 0
    ensures s.data == p.entry
  {
    InDoubt(s, plan, p);
    StepFacts(s, plan, p);
  }

  /** The journal admits a retry of the upgrade, beside a checkpoint that is open. */
  ghost predicate Retryable(db: Connection, plan: Plan, catalog: string -> Plan)
    reads db
  {
    && Sound(db, catalog) && db.faults == [] && Doomed(db.durable, db.progress)
    && Last(db.durable).status == FailedRetryable && Last(db.durable).direction == Upgrade
    && Last(db.durable).checksum == plan.checksum
  }

  lemma RetryableIsAdmitted(db: Connection, plan: Plan, catalog: string -> Plan)
    requires Retryable(db, plan, catalog) && plan == catalog(plan.checksum) && UniqueIds(plan.upgrade)
    ensures Admissible(db.durable, plan, Upgrade, false)
  {
    hide UniqueIds, LatestRun, Inv, Recorded;
    RunsNumbered(db.durable, plan, db.progress);
    Facts(db.durable, plan, db.progress);
  }

  /**
   * From then on neither of them helps. Each retry is admitted and refused by the open checkpoint; it leaves a run
   * in doubt that owns no checkpoint, so reconciliation has nothing to inspect and allows the next retry.
   */
  method RetryForever(db: Connection, plan: Plan, rounds: nat, ghost catalog: string -> Plan)
    returns (outcomes: seq<(Outcome, Verdict)>)
    requires Retryable(db, plan, catalog)
    requires plan == catalog(plan.checksum) && UniqueIds(plan.upgrade) && UniqueIds(plan.rollback)
    modifies db
    ensures |outcomes| == rounds && forall i :: 0 <= i < rounds ==> outcomes[i].0.Failed? && outcomes[i].1 == RetryAllowed
    ensures Retryable(db, plan, catalog) && SameEffects(old(db.durable), db.durable)
  {
    hide Inv, UniqueIds, Recorded, CurrentRows, Pinned;
    outcomes := [];
    for i := 0 to rounds
      invariant |outcomes| == i && forall h :: 0 <= h < i ==> outcomes[h].0.Failed? && outcomes[h].1 == RetryAllowed
      invariant Retryable(db, plan, catalog) && SameEffects(old(db.durable), db.durable)
    {
      var o, v := RetryOnce(db, plan, catalog);
      outcomes := outcomes + [(o, v)];
    }
  }

  /** What ends it is to abandon the run that a retry leaves in doubt: after that nothing is admitted. */
  method AbandonEnds(db: Connection, plan: Plan, ghost catalog: string -> Plan) returns (o: Outcome, v: Verdict)
    requires Retryable(db, plan, catalog) && plan == catalog(plan.checksum) && UniqueIds(plan.upgrade)
    modifies db
    ensures o.Failed? && v.AbandonedRun?
    ensures Sound(db, catalog) && db.durable.runs != [] && Last(db.durable).status == Abandoned
    ensures SameEffects(old(db.durable), db.durable)
    ensures forall checksum, d, reapply :: Admit(LatestRun(db.durable.runs), checksum, d, reapply).Refused?
  {
    hide Inv, UniqueIds, Recorded, Pinned, Admissible, Admit, LatestRun, CurrentRows;
    RetryableIsAdmitted(db, plan, catalog);
    o := Execute(db, plan, Upgrade, false, false, catalog);
    v := Reconcile(db, Some(plan), true, Abandon, catalog);
    RunsNumbered(db.durable, catalog(Last(db.durable).checksum), db.progress);
    forall checksum, d, reapply ensures Admit(LatestRun(db.durable.runs), checksum, d, reapply).Refused? {
      DoubtRefusesRetry(db.durable.runs, checksum, d, reapply);
    }
  }

  method RetryOnce(db: Connection, plan: Plan, ghost catalog: string -> Plan) returns (o: Outcome, v: Verdict)
    requires Retryable(db, plan, catalog)
    requires plan == catalog(plan.checksum) && UniqueIds(plan.upgrade) && UniqueIds(plan.rollback)
    modifies db
    ensures o.Failed? && v == RetryAllowed
    ensures Retryable(db, plan, catalog) && SameEffects(old(db.durable), db.durable)
  {
    hide Inv, UniqueIds, Recorded, Pinned, Admissible, Admit, LatestRun, RowProven, OperationProven, GuardRowDone;
    RetryableIsAdmitted(db, plan, catalog);
    o := Execute(db, plan, Upgrade, false, false, catalog);
    assert RunEvolves(old(db.durable.runs)[|old(db.durable.runs)| - 1], Last(db.durable));
    assert Evidenced(db.durable, plan);
    v := Reconcile(db, Some(plan), true, VerifiedRetry, catalog);
  }

  // ---------- an insert that is not owned ----------

  /** The steps before `k` pass, and so do the guards of that one; its statement `i` is the first whose claim is not met. */
  ghost predicate FirstUnmet(plan: Plan, k: nat, i: nat, d: Data) {
    && k < |plan.upgrade|
    && (forall j :: 0 <= j < k ==> StepPasses(Upgrade, plan.upgrade[j], RunSteps(plan.upgrade, j, d)))
    && Passes(plan.upgrade[k].before, RunSteps(plan.upgrade, k, d))
    && UnmetAt(plan.upgrade[k].statements, i, RunSteps(plan.upgrade, k, d))
  }

  lemma {:induction false} UnmetIsDisowned(plan: Plan, k: nat, i: nat, d: Data, j: nat)
    requires FirstUnmet(plan, k, i, d) && j <= k
    ensures StepsDisowned(Upgrade, plan.upgrade, j, RunSteps(plan.upgrade, j, d))
    decreases k - j
  {
    hide StepPasses, Passes, RunStep, UnmetAt;
    if j < k {
      UnmetIsDisowned(plan, k, i, d, j + 1);
      assert StepPasses(Upgrade, plan.upgrade[j], RunSteps(plan.upgrade, j, d));
    }
  }

  /**
   * An upgrade in which nothing fails but one claim: an insert does not affect the rows it claims. The run ends
   * FAILED_FINAL, and no later command of any kind, under any faults, changes the store.
   */
  method DisownedUpgrade(empty: Store, plan: Plan, ghost k: nat, ghost i: nat, later: seq<Command>, script: seq<Fault>,
                         ghost catalog: string -> Plan)
    returns (db: Connection, first: Outcome, ghost after: Store)
    requires empty.runs == [] && empty.checkpoints == map[] && empty.receipts == []
    requires plan == catalog(plan.checksum) && UniqueIds(plan.upgrade) && FirstUnmet(plan, k, i, empty.data)
    requires forall h :: 0 <= h < |later| ==> Honest(later[h], catalog)
    ensures first == Failed(OwnershipError)
    ensures after.runs != [] && Last(after).status == FailedFinal
    ensures db.durable == after
  {
    hide Inv, UniqueIds, Recorded, FirstUnmet, StepsDisowned, Pinned, StillDoomed, Doomed, RunEvolves;
    db := new Connection(empty, []);
    UnmetIsDisowned(plan, k, i, empty.data, 0);
    ghost var p := db.progress;
    assert RunSteps(plan.upgrade, 0, empty.data) == empty.data;
    assert Admissible(empty, plan, Upgrade, false);
    assert WillDisown(empty, p, plan, Upgrade, false);
    first := Execute(db, plan, Upgrade, false, false, catalog);
    after := db.durable;
    db.faults := script;
    FinalForever(db, later, catalog);
  }

  /** A run that ended for good refuses every command after it. */
  method FinalForever(db: Connection, later: seq<Command>, ghost catalog: string -> Plan)
    requires Sound(db, catalog) && db.durable.runs != [] && Terminal(Last(db.durable).status)
    requires forall h :: 0 <= h < |later| ==> Honest(later[h], catalog)
    modifies db
    ensures Sound(db, catalog) && db.durable == old(db.durable)
  {
    hide Inv, UniqueIds, Recorded, Admit, LatestRun, Pinned, StillDoomed, Doomed, RunEvolves, Evolves;
    for h := 0 to |later|
      invariant Sound(db, catalog) && db.durable == old(db.durable)
    {
      assert Honest(later[h], catalog);
      match later[h]
      case Migrate(other, direction, baseline, reapply) =>
        RunsNumbered(db.durable, catalog(Last(db.durable).checksum), db.progress);
        DoubtRefusesRetry(db.durable.runs, other.checksum, direction, reapply);
        var _ := Execute(db, other, direction, baseline, reapply, catalog);
      case Resolve(reviewed, apply, decision) =>
        var _ := Reconcile(db, reviewed, apply, decision, catalog);
    }
  }
}
