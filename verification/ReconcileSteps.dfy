/** Why a verified reconciliation may mark a step finished. */
module ReconcileSteps {
  import opened Options
  import opened Plans
  import opened Journal
  import opened JournalSteps

  /** The checkpoints written by the latest run: all that reconciliation inspects. */
  function CurrentRows(s: Store, run: Run): set<Key> {
    set key | key in s.checkpoints && key.epoch == run.epoch && s.checkpoints[key].runId == run.runId
  }

  /** A checkpoint matches the plan, and a claimed insert is at least verified. */
  predicate RowProven(s: Store, plan: Plan, key: Key)
    requires key in s.checkpoints
  {
    var steps := plan.Steps(key.direction);
    var i := IndexOf(steps, key.op);
    && i >= 0
    && DigestOf(steps[i], key.direction, key.index) == Some(s.checkpoints[key].digest)
    && (0 <= key.index < |steps[i].statements| && steps[i].statements[key.index].claim.Some? ==>
          s.checkpoints[key].mark != Pending)
  }

  /** An operation has all its checkpoints, and postconditions that hold. */
  ghost predicate OperationProven(s: Store, plan: Plan, current: set<Key>, epoch: nat, d: Direction, op: string) {
    var steps := plan.Steps(d);
    var i := IndexOf(steps, op);
    && i >= 0
    && (steps[i].statements != [] ==>
          && (forall h :: 0 <= h < |steps[i].statements| ==> Key(epoch, d, op, h) in current)
          && steps[i].after != []
          && Passes(steps[i].after, s.data))
  }

  /** Reconciliation marks the rows of the operations it has proven, and only those. */
  ghost predicate MarkedDone(checkpoints: map<Key, Checkpoint>, checkpoints': map<Key, Checkpoint>,
                             plan: Plan, epoch: nat, ops: set<(Direction, string)>) {
    forall key: Key ::
      && (key in checkpoints' <==> key in checkpoints)
      && (key in checkpoints ==>
            || checkpoints'[key] == checkpoints[key]
            || ((key.direction, key.op) in ops && checkpoints'[key] == checkpoints[key].(mark := Done)))
      && (key in checkpoints && key.epoch == epoch && (key.direction, key.op) in ops && HasSql(plan, key.direction, key.op) ==>
            checkpoints'[key].mark == Done)
  }

  predicate HasSql(plan: Plan, d: Direction, op: string) {
    var i := IndexOf(plan.Steps(d), op);
    i >= 0 && plan.Steps(d)[i].statements != []
  }

  function OperationsOf(current: set<Key>): set<(Direction, string)> {
    set key | key in current :: (key.direction, key.op)
  }

  /** Everything the latest run touched is proven. */
  ghost predicate AllProven(s: Store, plan: Plan)
    requires s.runs != []
  {
    var current := CurrentRows(s, Last(s));
    && (forall key :: key in current ==> RowProven(s, plan, key))
    && (forall key :: key in current ==> OperationProven(s, plan, current, Last(s).epoch, key.direction, key.op))
  }

  ghost predicate Reconciled(s: Store, t: Store, plan: Plan)
    requires s.runs != []
  {
    && t == s.(checkpoints := t.checkpoints)
    && AllProven(s, plan)
    && MarkedDone(s.checkpoints, t.checkpoints, plan, Last(s).epoch, OperationsOf(CurrentRows(s, Last(s))))
  }

  /** Where the store stands after reconciliation: the step in doubt, if any, counts as finished. */
  ghost function After(s: Store, p: Progress): Progress
    requires s.runs != []
  {
    if p.rows > 0 && p.owner == Last(s).runId then
      p.Next(s.data).(closed := p.closed + {Reviewed(|s.runs|, Last(s).direction, p.steps)})
    else p
  }

  /** More reviewed steps ask for more trust, so what follows from trust stays true. */
  lemma TrustGrows(s: Store, plan: Plan, p: Progress, closed: set<Reviewed>)
    requires s.runs != [] && Inv(s, plan, p) && p.closed <= closed
    ensures Inv(s, plan, p.(closed := closed))
  {
    hide Shape, Marks, Owned, Reapplied, Unfinished, StatusHolds, Runnable;
    var q := p.(closed := closed);
    forall i | 0 <= i < |s.runs| - 1 ensures LeftBehind(plan, s.runs[i], s.runs[i + 1], closed) {
      assert LeftBehind(plan, s.runs[i], s.runs[i + 1], p.closed);
      TrustShrinks(plan, s.runs[i], p.closed, closed);
    }
    TrustShrinks(plan, Last(s), p.closed, closed);
    SameUnfinished(s, plan, p, closed);
  }

  lemma TrustShrinks(plan: Plan, run: Run, closed: set<Reviewed>, more: set<Reviewed>)
    requires closed <= more
    ensures Trusted(plan, run, more) ==> Trusted(plan, run, closed)
  {
  }

  lemma SameUnfinished(s: Store, plan: Plan, p: Progress, closed: set<Reviewed>)
    requires s.runs != [] && Inv(s, plan, p)
    ensures var q := p.(closed := closed);
      && (p.steps < |plan.Steps(Last(s).direction)| ==>
            Unfinished(s.checkpoints, Last(s).epoch, Last(s).direction, plan.Steps(Last(s).direction)[p.steps], q))
      && StatusHolds(Last(s), plan, q)
  {
  }

  /**
   * The heart of reconciliation: all checkpoints present, no unverified claim, and the after-guards
   * passing leave only two states the step can be in, and trusted guards exclude the short one.
   */
  lemma WholeOrShort(checkpoints: map<Key, Checkpoint>, epoch: nat, d: Direction, step: Step, p: Progress, data: Data)
    requires Unfinished(checkpoints, epoch, d, step, p)
    requires p.rows == |step.statements| > 0 && step.after != []
    requires data == Prefix(step.statements, p.effects, p.entry)
    requires forall i :: 0 <= i < p.rows && step.statements[i].claim.Some? ==>
      checkpoints[Key(epoch, d, step.id, i)].mark != Pending
    requires Passes(step.after, data)
    requires Discriminates(d, step, p.entry)
    ensures data == Plans.RunStep(step, p.entry)
  {
    if p.effects < |step.statements| {
      assert p.effects == Short(d, step);
      assert Unproven(d, step);
    }
  }

  lemma StepReconciled(s: Store, t: Store, plan: Plan, p: Progress)
    requires InStep(s, plan, p) && Reconciled(s, t, plan)
    requires p.rows > 0 && p.owner == Last(s).runId
    ensures p.rows == |StepAt(s, plan, p).statements|
    ensures EntryHolds(plan, Last(s), p.steps + 1, s.data, After(s, p).closed)
    ensures ClaimsReceived(s.receipts, |s.runs|, Last(s).direction, StepAt(s, plan, p), p.rows)
    ensures AllDone(s.checkpoints, t.checkpoints, |s.runs|, Last(s).direction, StepAt(s, plan, p).id)
  {
    hide Inv, Shape, Marks;
    Facts(s, plan, p);
    StepFacts(s, plan, p);
    DoubtProven(s, plan, p);
    DoubtMarked(s, t, plan, p);
    DoubtClaims(s, plan, p);
    var step, d, closed := StepAt(s, plan, p), Last(s).direction, After(s, p).closed;
    if Trusted(plan, Last(s), closed) {
      TrustShrinks(plan, Last(s), p.closed, closed);
      assert Sure(plan, Reviewed(|s.runs|, d, p.steps), Last(s).origin);
      WholeOrShort(s.checkpoints, |s.runs|, d, step, p, s.data);
    }
  }

  /** The step in doubt is one the latest run touched, so it was inspected in full. */
  lemma DoubtProven(s: Store, plan: Plan, p: Progress)
    requires InStep(s, plan, p) && AllProven(s, plan)
    requires p.rows > 0 && p.owner == Last(s).runId
    ensures p.rows == |StepAt(s, plan, p).statements|
    ensures StepAt(s, plan, p).after != [] && Passes(StepAt(s, plan, p).after, s.data)
    ensures forall i :: 0 <= i < p.rows && StepAt(s, plan, p).statements[i].claim.Some? ==>
      s.checkpoints[KeyAt(s, plan, p, i)].mark != Pending
  {
    hide Inv, Shape, Marks, MarkedDone;
    Facts(s, plan, p);
    StepFacts(s, plan, p);
    var step, d, current := StepAt(s, plan, p), Last(s).direction, CurrentRows(s, Last(s));
    IndexOfUnique(plan.Steps(d), p.steps);
    forall i | 0 <= i < p.rows ensures KeyAt(s, plan, p, i) in current {
    }
    assert OperationProven(s, plan, current, |s.runs|, d, step.id) by {
      assert KeyAt(s, plan, p, 0) in current;
    }
    if p.rows < |step.statements| {
      assert Key(|s.runs|, d, step.id, p.rows) in current;
      NextIsFresh(s, plan, p, p.rows);
    }
  }

  lemma DoubtClaims(s: Store, plan: Plan, p: Progress)
    requires InStep(s, plan, p) && p.rows == |StepAt(s, plan, p).statements|
    requires forall i :: 0 <= i < p.rows && StepAt(s, plan, p).statements[i].claim.Some? ==>
      KeyAt(s, plan, p, i) in s.checkpoints && s.checkpoints[KeyAt(s, plan, p, i)].mark != Pending
    ensures ClaimsReceived(s.receipts, |s.runs|, Last(s).direction, StepAt(s, plan, p), p.rows)
  {
    hide Shape, Marks, Effects, Epochs, Reapplied, HasReceipt;
    IndexOfUnique(plan.Steps(Last(s).direction), p.steps);
    forall i | 0 <= i < p.rows && StepAt(s, plan, p).statements[i].claim.Some?
      ensures HasReceipt(s.receipts, KeyAt(s, plan, p, i))
    {
      assert Claimed(plan, KeyAt(s, plan, p, i));
    }
  }

  lemma DoubtMarked(s: Store, t: Store, plan: Plan, p: Progress)
    requires InStep(s, plan, p) && Reconciled(s, t, plan)
    requires p.rows > 0 && p.owner == Last(s).runId
    ensures AllDone(s.checkpoints, t.checkpoints, |s.runs|, Last(s).direction, StepAt(s, plan, p).id)
  {
    Facts(s, plan, p);
    StepFacts(s, plan, p);
    var d, op, current := Last(s).direction, StepAt(s, plan, p).id, CurrentRows(s, Last(s));
    IndexOfUnique(plan.Steps(d), p.steps);
    assert KeyAt(s, plan, p, 0) in current;
    assert (d, op) in OperationsOf(current);
    forall key: Key | key in s.checkpoints
      ensures t.checkpoints[key] == if key.epoch == |s.runs| && key.direction == d && key.op == op
                                    then s.checkpoints[key].(mark := Done) else s.checkpoints[key]
    {
      OnlyDoubt(s, plan, p, key);
    }
  }

  /** Outside the step in doubt every checkpoint is done; inside, its indexes are those of statements. */
  lemma OnlyDoubt(s: Store, plan: Plan, p: Progress, key: Key)
    requires InStep(s, plan, p) && key in s.checkpoints
    ensures key.epoch == |s.runs| && key.direction == Last(s).direction && key.op == StepAt(s, plan, p).id ==>
      key.index >= 0
    ensures !(key.epoch == |s.runs| && key.direction == Last(s).direction && key.op == StepAt(s, plan, p).id) ==>
      s.checkpoints[key].mark == Done
  {
    hide Effects, Owned, Epochs, Reapplied;
    IndexOfUnique(plan.Steps(Last(s).direction), p.steps);
    if CurrentStep(plan, |s.runs|, Last(s).direction, p.steps, key) {
      assert key.op == StepAt(s, plan, p).id;
    }
  }

  /** Nothing the latest run left is in doubt: reconciliation changes no mark. */
  lemma NoDoubt(s: Store, t: Store, plan: Plan, p: Progress)
    requires s.runs != [] && Inv(s, plan, p) && Reconciled(s, t, plan)
    requires p.rows > 0 ==> p.owner != Last(s).runId
    ensures t.checkpoints == s.checkpoints
  {
    forall key: Key | key in s.checkpoints ensures t.checkpoints[key] == s.checkpoints[key] {
      Undoubted(s, t, plan, p, key);
    }
  }

  /** Every row of the step in doubt belongs to the run that left it. */
  lemma OwnedByLeaver(s: Store, plan: Plan, p: Progress, key: Key)
    requires s.runs != [] && Inv(s, plan, p) && key in s.checkpoints
    requires CurrentStep(plan, |s.runs|, Last(s).direction, p.steps, key)
    ensures p.rows > 0 && s.checkpoints[key].runId == p.owner
  {
    Facts(s, plan, p);
    StepFacts(s, plan, p);
    hide Owned, Epochs, Reapplied, Effects, Marks;
    assert key == Key(|s.runs|, Last(s).direction, plan.Steps(Last(s).direction)[p.steps].id, key.index);
  }

  /** So no row of it is inspected when another run left it. */
  lemma NotInspected(s: Store, plan: Plan, p: Progress, key: Key)
    requires s.runs != [] && Inv(s, plan, p) && key in s.checkpoints
    requires p.rows > 0 ==> p.owner != Last(s).runId
    requires CurrentStep(plan, |s.runs|, Last(s).direction, p.steps, key)
    ensures (key.direction, key.op) !in OperationsOf(CurrentRows(s, Last(s)))
  {
    hide Inv;
    Facts(s, plan, p);
    forall other | other in CurrentRows(s, Last(s)) ensures (other.direction, other.op) != (key.direction, key.op) {
      if CurrentStep(plan, |s.runs|, Last(s).direction, p.steps, other) {
        OwnedByLeaver(s, plan, p, other);
      }
    }
  }

  lemma DoneOutside(s: Store, plan: Plan, p: Progress, key: Key)
    requires s.runs != [] && Inv(s, plan, p) && key in s.checkpoints
    ensures CurrentStep(plan, |s.runs|, Last(s).direction, p.steps, key) || s.checkpoints[key].mark == Done
  {
    hide Shape, Effects, Owned, Epochs, Reapplied, Digested;
  }

  lemma Undoubted(s: Store, t: Store, plan: Plan, p: Progress, key: Key)
    requires s.runs != [] && Inv(s, plan, p) && Reconciled(s, t, plan)
    requires p.rows > 0 ==> p.owner != Last(s).runId
    requires key in s.checkpoints
    ensures t.checkpoints[key] == s.checkpoints[key]
  {
    hide Inv, OperationProven, RowProven;
    DoneOutside(s, plan, p, key);
    if CurrentStep(plan, |s.runs|, Last(s).direction, p.steps, key) {
      NotInspected(s, plan, p, key);
    }
  }

  /** Reconciliation keeps the invariant. */
  lemma ReconcileKeeps(s: Store, t: Store, plan: Plan, p: Progress)
    requires s.runs != [] && Inv(s, plan, p) && Reconciled(s, t, plan)
    requires Last(s).status in {Applying, UnknownRequiresReconciliation}
    ensures Inv(t, plan, After(s, p))
    ensures After(s, p).rows > 0 ==> After(s, p).unheard
  {
    hide Inv, Reconciled, StatusHolds, Trusted, EntryHolds;
    OwnerKnown(s, plan, p);
    if p.rows > 0 && p.owner == Last(s).runId {
      DoubtCloses(s, t, plan, p);
    } else {
      NoDoubt(s, t, plan, p);
      DataKept(s, t, plan);
    }
  }

  lemma DoubtCloses(s: Store, t: Store, plan: Plan, p: Progress)
    requires s.runs != [] && Inv(s, plan, p) && Reconciled(s, t, plan)
    requires Last(s).status in {Applying, UnknownRequiresReconciliation}
    requires p.rows > 0 && p.owner == Last(s).runId
    ensures Inv(t, plan, After(s, p))
  {
    hide Inv, Reconciled, StatusHolds, Trusted, EntryHolds, ClaimsReceived, AllDone;
    InDoubt(s, plan, p);
    StepReconciled(s, t, plan, p);
    DataKept(s, t, plan);
    var q := p.(closed := After(s, p).closed);
    TrustGrows(s, plan, p, q.closed);
    FinishStep(s, t, plan, q);
  }

  lemma InDoubt(s: Store, plan: Plan, p: Progress)
    requires s.runs != [] && Inv(s, plan, p) && p.rows > 0
    ensures InStep(s, plan, p)
  {
  }

  lemma OwnerKnown(s: Store, plan: Plan, p: Progress)
    requires s.runs != [] && Inv(s, plan, p)
    ensures p.rows > 0 && !p.unheard ==> p.owner == Last(s).runId
  {
  }

  lemma DataKept(s: Store, t: Store, plan: Plan)
    requires s.runs != [] && Reconciled(s, t, plan)
    ensures t == s.(checkpoints := t.checkpoints)
  {
  }
}
