/** What the journal invariant means to an operator who reads the database. */
module JournalTheorems {
  import opened Options
  import opened Plans
  import opened Journal
  import opened JournalSteps
  import opened ReconcileSteps

  /** A successful upgrade is the whole plan run once, in order, from where the epoch began. */
  lemma SuccessIsReplay(s: Store, plan: Plan, p: Progress)
    requires s.runs != [] && Inv(s, plan, p)
    requires Last(s).status == AppliedSuccess && !Last(s).baseline && Trusted(plan, Last(s), p.closed)
    ensures s.data == RunAll(plan.upgrade, Last(s).origin)
  {
    hide Trusted, Shape, Marks, Owned, Epochs, Reapplied, Unfinished;
  }

  /** A finished rollback is both directions run once, in order, from where the epoch began. */
  lemma RollbackIsReplay(s: Store, plan: Plan, p: Progress)
    requires s.runs != [] && Inv(s, plan, p)
    requires Last(s).status == RolledBack && Trusted(plan, Last(s), p.closed)
    ensures s.data == RunAll(plan.rollback, RunAll(plan.upgrade, Last(s).origin))
  {
    hide Trusted, Shape, Marks, Owned, Epochs, Reapplied, Unfinished;
  }

  /** Every step that reconciliation ever declared finished had guards to tell, in epochs that began alike. */
  ghost predicate TrustedFrom(plan: Plan, start: Data, closed: set<Reviewed>) {
    forall r :: r in closed ==> Sure(plan, r, start)
  }

  lemma TrustedRun(plan: Plan, run: Run, closed: set<Reviewed>)
    requires TrustedFrom(plan, run.origin, closed)
    ensures Trusted(plan, run, closed)
  {
  }

  /** When rolling back restores what was, every epoch begins where the first one began. */
  lemma {:induction false} OriginsAgree(runs: seq<Run>, plan: Plan, closed: set<Reviewed>, i: nat)
    requires Epochs(runs, plan, closed) && i < |runs|
    requires TrustedFrom(plan, runs[0].origin, closed)
    requires RunAll(plan.rollback, RunAll(plan.upgrade, runs[0].origin)) == runs[0].origin
    ensures runs[i].origin == runs[0].origin
  {
    hide Trusted, TrustedFrom, RunAll;
    if i > 0 {
      OriginsAgree(runs, plan, closed, i - 1);
      assert LeftBehind(plan, runs[i - 1], runs[i], closed);
      TrustedRun(plan, runs[i - 1], closed);
    }
  }

  /**
   * The journal tells the truth about the data, over any number of epochs: with a rollback that undoes the
   * upgrade, the latest row alone says whether the tables are upgraded or as they were at the start.
   */
  lemma StatusDeterminesData(s: Store, plan: Plan, p: Progress)
    requires s.runs != [] && Inv(s, plan, p) && TrustedFrom(plan, Start(s), p.closed)
    requires RunAll(plan.rollback, RunAll(plan.upgrade, Start(s))) == Start(s)
    ensures Last(s).status == AppliedSuccess && !Last(s).baseline ==> s.data == RunAll(plan.upgrade, Start(s))
    ensures Last(s).status == RolledBack ==> s.data == Start(s)
  {
    hide Trusted, TrustedFrom, RunAll, Inv;
    EpochsOf(s, plan, p);
    OriginsAgree(s.runs, plan, p.closed, |s.runs| - 1);
    TrustedRun(plan, Last(s), p.closed);
    if Last(s).status == AppliedSuccess && !Last(s).baseline {
      SuccessIsReplay(s, plan, p);
    }
    if Last(s).status == RolledBack {
      RollbackIsReplay(s, plan, p);
    }
  }

  lemma EpochsOf(s: Store, plan: Plan, p: Progress)
    requires s.runs != [] && Inv(s, plan, p)
    ensures Epochs(s.runs, plan, p.closed)
  {
  }

  // ---------- the shape of the checkpoint table ----------

  ghost predicate HasRow(s: Store, plan: Plan, epoch: nat, d: Direction, i: nat, index: int)
    requires i < |plan.Steps(d)|
  {
    Key(epoch, d, plan.Steps(d)[i].id, index) in s.checkpoints
  }

  /** Checkpointed steps are a prefix of the plan, and each but the last is finished in full. */
  lemma StepsFormPrefix(s: Store, plan: Plan, p: Progress, epoch: nat, d: Direction, i: nat, j: nat, index: int)
    requires s.runs != [] && Inv(s, plan, p) && UniqueIds(plan.Steps(d))
    requires i < j < |plan.Steps(d)| && HasRow(s, plan, epoch, d, j, index)
    ensures forall h: int :: HasRow(s, plan, epoch, d, i, h) <==> Expected(plan.Steps(d)[i], h)
    ensures forall h: int :: HasRow(s, plan, epoch, d, i, h) ==>
      s.checkpoints[Key(epoch, d, plan.Steps(d)[i].id, h)].mark == Done
  {
    hide Effects, Owned, Epochs, Reapplied, StatusHolds;
    IndexOfUnique(plan.Steps(d), i);
    IndexOfUnique(plan.Steps(d), j);
  }

  /** Within a step the checkpointed statements are an initial segment. */
  lemma RowsFormSegment(s: Store, plan: Plan, p: Progress, epoch: nat, d: Direction, i: nat, index: int)
    requires s.runs != [] && Inv(s, plan, p) && UniqueIds(plan.Steps(d))
    requires i < |plan.Steps(d)| && HasRow(s, plan, epoch, d, i, index) && index > 0
    ensures HasRow(s, plan, epoch, d, i, index - 1)
  {
    hide Effects, Owned, Epochs, Reapplied, StatusHolds, Marks;
    IndexOfUnique(plan.Steps(d), i);
  }

  /** An open checkpoint of a settled epoch. */
  ghost predicate LeftOpen(s: Store) {
    exists key :: key in s.checkpoints && s.checkpoints[key].mark != Done
  }

  /**
   * A settled epoch has an unfinished checkpoint if and only if the commit that wrote it, the first of a run
   * that had found none, took effect without being heard of.
   */
  lemma SettledIsDone(s: Store, plan: Plan, p: Progress)
    requires s.runs != [] && Inv(s, plan, p)
    requires Last(s).status in {AppliedSuccess, RolledBack, FailedRetryable}
    ensures LeftOpen(s) <==> p.unheard
  {
    hide Owned, Epochs, Reapplied, Shape;
    Facts(s, plan, p);
    if p.rows > 0 {
      OpenRow(s, plan, p);
    }
    if LeftOpen(s) {
      var key :| key in s.checkpoints && s.checkpoints[key].mark != Done;
      OwnedByLeaver(s, plan, p, key);
    }
  }

  lemma OpenRow(s: Store, plan: Plan, p: Progress)
    requires s.runs != [] && Inv(s, plan, p) && p.rows > 0
    ensures
      exists key :: key in s.checkpoints && s.checkpoints[key].mark != Done && s.checkpoints[key].runId == p.owner
  {
    hide Inv;
    InDoubt(s, plan, p);
    StepFacts(s, plan, p);
    var key := KeyAt(s, plan, p, 0);
    assert key in s.checkpoints && s.checkpoints[key].mark != Done && s.checkpoints[key].runId == p.owner;
  }

  /** An unfinished checkpoint belongs to the latest direction, and to the latest run unless it was unheard of. */
  lemma DoubtIsRecent(s: Store, plan: Plan, p: Progress, key: Key)
    requires s.runs != [] && Inv(s, plan, p) && key in s.checkpoints && s.checkpoints[key].mark != Done
    ensures key.epoch == |s.runs| && key.direction == Last(s).direction && p.rows > 0
    ensures s.checkpoints[key].runId == p.owner
    ensures !p.unheard ==> s.checkpoints[key].runId == Last(s).runId
  {
    hide Owned, Epochs, Reapplied, Shape, Effects;
    OwnedByLeaver(s, plan, p, key);
  }

  /** A verified or finished checkpoint of a claimed insert proves the insert, however it became so. */
  lemma InsertIsOwned(s: Store, plan: Plan, p: Progress, key: Key)
    requires s.runs != [] && Inv(s, plan, p)
    requires key in s.checkpoints && s.checkpoints[key].mark in {WriteVerified, Done} && Claimed(plan, key)
    ensures exists r :: r in s.receipts && r.key == key && r.claimed == Some(r.affected)
  {
    hide Shape, Marks, Effects, Epochs, Reapplied, StatusHolds;
    assert HasReceipt(s.receipts, key);
  }

  /** A generated rollback step that only inserts, updates and deletes is never found half done. */
  lemma RollbackStepIsWhole(s: Store, plan: Plan, p: Progress)
    requires s.runs != [] && Inv(s, plan, p) && Last(s).direction == Rollback && p.steps < |plan.rollback|
    requires plan.rollback[p.steps].generated
    requires forall statement :: statement in plan.rollback[p.steps].statements ==> statement.keyword in {Insert, Update, Delete}
    ensures s.data == p.entry
  {
    hide Shape, Marks, Owned, Epochs, Reapplied, StatusHolds;
    assert forall i :: 0 <= i < |plan.rollback[p.steps].statements| ==>
      plan.rollback[p.steps].statements[i] in plan.rollback[p.steps].statements;
  }

  /** Epochs are numbered from 1, and every epoch but the latest ended rolled back and was reapplied. */
  lemma EpochDiscipline(s: Store, plan: Plan, p: Progress, i: nat)
    requires s.runs != [] && Inv(s, plan, p) && i < |s.runs|
    ensures s.runs[i].epoch == i + 1 && s.runs[i].checksum == plan.checksum
    ensures i < |s.runs| - 1 ==>
      s.runs[i].status == RolledBack && Event(Reapply(i + 1), i + 2) in s.events
  {
    hide Shape, Marks, Effects, Owned, StatusHolds;
    if i < |s.runs| - 1 {
      assert LeftBehind(plan, s.runs[i], s.runs[i + 1], p.closed);
      assert ReapplyLogged(s.events, i + 2);
    }
  }

  // ---------- admission ----------

  /** A run that may have had effects, or that an operator or an ownership failure ended, is refused. */
  lemma DoubtRefusesRetry(runs: seq<Run>, checksum: string, direction: Direction, reapply: bool)
    requires runs != [] && forall i :: 0 <= i < |runs| ==> runs[i].epoch == i + 1
    requires runs[|runs| - 1].status in {Applying, UnknownRequiresReconciliation, Abandoned, FailedFinal}
    ensures Admit(LatestRun(runs), checksum, direction, reapply).Refused?
  {
    LatestIsLast(runs);
  }

  /** A new epoch opens only over nothing, or over a rollback with an explicit reapply. */
  lemma OpensOverRollback(runs: seq<Run>, checksum: string, direction: Direction, reapply: bool)
    requires forall i :: 0 <= i < |runs| ==> runs[i].epoch == i + 1
    ensures Admit(LatestRun(runs), checksum, direction, reapply).Open? <==>
      && direction == Upgrade
      && (runs != [] ==>
            && runs[|runs| - 1].checksum == checksum
            && runs[|runs| - 1].status == RolledBack && reapply)
    ensures Admit(LatestRun(runs), checksum, direction, reapply).Open? ==>
      Admit(LatestRun(runs), checksum, direction, reapply).epoch == |runs| + 1
  {
    LatestIsLast(runs);
  }

  /**
   * And over a journal, nothing is left to do if and only if an upgrade finds its success; a run goes on in the
   * latest epoch if and only if it failed in this direction with proof, or is a success to be rolled back.
   */
  lemma ResumesOverProof(runs: seq<Run>, checksum: string, direction: Direction, reapply: bool)
    requires runs != [] && forall i :: 0 <= i < |runs| ==> runs[i].epoch == i + 1
    ensures
      var last, admission := runs[|runs| - 1], Admit(LatestRun(runs), checksum, direction, reapply);
      && (admission.AlreadyApplied? <==> direction == Upgrade && last.checksum == checksum && last.status == AppliedSuccess)
      && (admission.Resume? <==>
            && last.checksum == checksum && (direction == Rollback ==> !last.baseline)
            && (|| (direction == Rollback && last.status == AppliedSuccess)
                || (last.status == FailedRetryable && last.direction == direction && last.error in {NoSideEffects, ReconciledVerified})))
      && (admission.Resume? ==> admission.epoch == |runs|)
  {
    LatestIsLast(runs);
  }

  // ---------- when reconciliation is right ----------

  /** The evidence reconciliation asks of a step in doubt. */
  ghost predicate Proven(checkpoints: map<Key, Checkpoint>, epoch: nat, d: Direction, step: Step, p: Progress, data: Data) {
    && p.rows == |step.statements|
    && step.after != [] && Passes(step.after, data)
    && forall i :: 0 <= i < |step.statements| ==>
         var key := Key(epoch, d, step.id, i);
         && key in checkpoints && DigestOf(step, d, i) == Some(checkpoints[key].digest)
         && (step.statements[i].claim.Some? ==> checkpoints[key].mark != Pending)
  }

  /** Whatever state a crash left the step in, passing the evidence means its whole effect is there. */
  ghost predicate EvidenceSuffices(epoch: nat, d: Direction, step: Step, entry: Data) {
    forall checkpoints: map<Key, Checkpoint>, p: Progress ::
      p.entry == entry && Unfinished(checkpoints, epoch, d, step, p) &&
      Proven(checkpoints, epoch, d, step, p, Prefix(step.statements, p.effects, entry)) ==>
        Prefix(step.statements, p.effects, entry) == RunStep(step, entry)
  }

  /** The checkpoint of a statement in the state that the after-guards must tell from the finished step. */
  function ShortRow(d: Direction, step: Step, i: nat, runId: nat): Checkpoint
    requires i < |step.statements|
  {
    var verified := step.statements[i].claim.Some? && !Locked(d, step);
    Checkpoint(runId, DigestOf(step, d, i).value, if verified then WriteVerified else Pending)
  }

  function ShortRows(epoch: nat, d: Direction, step: Step, runId: nat): (r: map<Key, Checkpoint>)
    ensures forall i :: 0 <= i < |step.statements| ==>
      Key(epoch, d, step.id, i) in r && r[Key(epoch, d, step.id, i)] == ShortRow(d, step, i, runId)
  {
    var keys := set i | 0 <= i < |step.statements| :: Key(epoch, d, step.id, i);
    map key | key in keys && 0 <= key.index < |step.statements| :: ShortRow(d, step, key.index, runId)
  }

  /** All checkpoints are there, every claim but the last one's is verified, and the last effect is missing. */
  lemma ShortIsPossible(checkpoints: map<Key, Checkpoint>, epoch: nat, d: Direction, step: Step, p: Progress)
    requires step.statements != [] && Unproven(d, step)
    requires forall i :: 0 <= i < |step.statements| ==>
      Key(epoch, d, step.id, i) in checkpoints && checkpoints[Key(epoch, d, step.id, i)] == ShortRow(d, step, i, p.owner)
    requires p.rows == |step.statements| && p.effects == Short(d, step)
    ensures Unfinished(checkpoints, epoch, d, step, p)
    ensures forall i :: 0 <= i < |step.statements| && step.statements[i].claim.Some? ==>
      checkpoints[Key(epoch, d, step.id, i)].mark != Pending
  {
    forall i | 0 <= i < |step.statements| && step.statements[i].claim.Some?
      ensures checkpoints[Key(epoch, d, step.id, i)].mark == WriteVerified && i < |step.statements| - 1
    {
    }
  }

  /**
   * Exactly when a verified reconciliation can be trusted: its after-guards must refuse the one state
   * in which every checkpoint is present, no claimed insert is pending, and an effect is missing.
   */
  lemma EvidenceSufficesIff(epoch: nat, d: Direction, step: Step, entry: Data)
    ensures EvidenceSuffices(epoch, d, step, entry) <==> Discriminates(d, step, entry)
  {
    if Discriminates(d, step, entry) {
      forall checkpoints: map<Key, Checkpoint>, p: Progress |
        p.entry == entry && Unfinished(checkpoints, epoch, d, step, p) &&
        Proven(checkpoints, epoch, d, step, p, Prefix(step.statements, p.effects, entry))
        ensures Prefix(step.statements, p.effects, entry) == RunStep(step, entry)
      {
        if p.rows > 0 {
          WholeOrShort(checkpoints, epoch, d, step, p, Prefix(step.statements, p.effects, entry));
        }
      }
    } else {
      var n := |step.statements|;
      var checkpoints, p := ShortRows(epoch, d, step, 0), Progress(0, n, Short(d, step), entry, 0, false, {});
      ShortIsPossible(checkpoints, epoch, d, step, p);
      assert Proven(checkpoints, epoch, d, step, p, Prefix(step.statements, p.effects, entry));
    }
  }
}
