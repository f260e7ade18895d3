/** Each write the engine commits keeps the journal invariant. */
module JournalSteps {
  import opened Options
  import opened Plans
  import opened Journal

  lemma {:induction false} LatestIsLast(runs: seq<Run>)
    requires forall i :: 0 <= i < |runs| ==> runs[i].epoch == i + 1
    ensures LatestRun(runs) == if runs == [] then None else Some(runs[|runs| - 1])
  {
    if runs != [] {
      LatestIsLast(runs[..|runs| - 1]);
    }
  }

  ghost function Last(s: Store): Run
    requires s.runs != []
  {
    s.runs[|s.runs| - 1]
  }

  lemma {:induction false} IndexOfUnique(steps: seq<Step>, i: nat)
    requires UniqueIds(steps) && i < |steps|
    ensures IndexOf(steps, steps[i].id) == i
  {
  }

  // ---------- the parts of the invariant ----------

  lemma EventsGrow(epochs: nat, events: seq<Event>, events': seq<Event>)
    requires Reapplied(epochs, events) && events <= events'
    ensures Reapplied(epochs, events')
  {
    forall e | 1 < e <= epochs ensures ReapplyLogged(events', e) {
      assert ReapplyLogged(events, e);
    }
  }

  lemma ReappliedNext(epochs: nat, events: seq<Event>)
    requires Reapplied(epochs, events) && ReapplyLogged(events, epochs + 1)
    ensures Reapplied(epochs + 1, events)
  {
  }

  lemma ReceiptsGrow(checkpoints: map<Key, Checkpoint>, receipts: seq<Receipt>, receipts': seq<Receipt>, plan: Plan)
    requires Owned(checkpoints, receipts, plan) && receipts <= receipts'
    ensures Owned(checkpoints, receipts', plan)
  {
    forall key | key in checkpoints && checkpoints[key].mark != Pending && Claimed(plan, key)
      ensures HasReceipt(receipts', key)
    {
      assert HasReceipt(receipts, key);
    }
  }

  ghost predicate SameRun(r: Run, q: Run) {
    r.epoch == q.epoch && r.checksum == q.checksum && r.origin == q.origin
  }

  /** `runs'` changes nothing but the last row, and keeps its identity. */
  ghost predicate SameHistory(runs: seq<Run>, runs': seq<Run>) {
    && runs != []
    && |runs'| == |runs|
    && (forall i :: 0 <= i < |runs| - 1 ==> runs'[i] == runs[i])
    && SameRun(runs[|runs| - 1], runs'[|runs| - 1])
  }

  lemma EpochsKept(runs: seq<Run>, runs': seq<Run>, plan: Plan, closed: set<Reviewed>)
    requires Epochs(runs, plan, closed) && SameHistory(runs, runs')
    ensures Epochs(runs', plan, closed)
  {
    forall i | 0 <= i < |runs'| - 1 ensures LeftBehind(plan, runs'[i], runs'[i + 1], closed) {
      assert LeftBehind(plan, runs[i], runs[i + 1], closed);
    }
  }

  lemma EpochsExtended(runs: seq<Run>, run: Run, plan: Plan, closed: set<Reviewed>)
    requires Epochs(runs, plan, closed)
    requires run.epoch == |runs| + 1 && run.checksum == plan.checksum
    requires runs != [] ==> LeftBehind(plan, runs[|runs| - 1], run, closed)
    ensures Epochs(runs + [run], plan, closed)
  {
    forall i | 0 <= i < |runs| ensures LeftBehind(plan, (runs + [run])[i], (runs + [run])[i + 1], closed) {
      if i < |runs| - 1 {
        assert LeftBehind(plan, runs[i], runs[i + 1], closed);
      }
    }
  }

  /** Once a rollback is finished nothing is missing in either direction of its epoch. */
  lemma ShapeClosed(checkpoints: map<Key, Checkpoint>, plan: Plan, epochs: nat)
    requires Shape(checkpoints, plan, epochs, Rollback, |plan.rollback|, 0)
    ensures Shape(checkpoints, plan, epochs + 1, Upgrade, 0, 0)
  {
    forall key: Key ensures
      Position(plan, epochs + 1, Upgrade, 0, 0, key.epoch, key.direction) ==
      Position(plan, epochs, Rollback, |plan.rollback|, 0, key.epoch, key.direction)
    {
    }
  }

  lemma MarksClosed(checkpoints: map<Key, Checkpoint>, plan: Plan, epochs: nat)
    requires Shape(checkpoints, plan, epochs, Rollback, |plan.rollback|, 0)
    requires Marks(checkpoints, plan, epochs, Rollback, |plan.rollback|)
    ensures Marks(checkpoints, plan, epochs + 1, Upgrade, 0)
  {
    NoneCurrent(checkpoints, plan, epochs, Rollback, |plan.rollback|);
  }

  /** A finished upgrade is a rollback that has not begun. */
  lemma ShapeTurned(checkpoints: map<Key, Checkpoint>, plan: Plan, epochs: nat)
    requires Shape(checkpoints, plan, epochs, Upgrade, |plan.upgrade|, 0)
    ensures Shape(checkpoints, plan, epochs, Rollback, 0, 0)
  {
    forall key: Key ensures
      Position(plan, epochs, Rollback, 0, 0, key.epoch, key.direction) ==
      Position(plan, epochs, Upgrade, |plan.upgrade|, 0, key.epoch, key.direction)
    {
    }
  }

  lemma MarksTurned(checkpoints: map<Key, Checkpoint>, plan: Plan, epochs: nat)
    requires Shape(checkpoints, plan, epochs, Upgrade, |plan.upgrade|, 0)
    requires Marks(checkpoints, plan, epochs, Upgrade, |plan.upgrade|)
    ensures Marks(checkpoints, plan, epochs, Rollback, 0)
  {
    NoneCurrent(checkpoints, plan, epochs, Upgrade, |plan.upgrade|);
  }

  lemma ShapeIntended(checkpoints: map<Key, Checkpoint>, plan: Plan, epochs: nat, d: Direction,
                      k: nat, rows: nat, row: Checkpoint)
    requires Shape(checkpoints, plan, epochs, d, k, rows) && UniqueIds(plan.Steps(d)) && epochs > 0
    requires k < |plan.Steps(d)|
    ensures Shape(checkpoints[Key(epochs, d, plan.Steps(d)[k].id, rows) := row], plan, epochs, d, k, rows + 1)
  {
    var key := Key(epochs, d, plan.Steps(d)[k].id, rows);
    IndexOfUnique(plan.Steps(d), k);
    forall other: Key ensures other in checkpoints[key := row] <==>
      Reached(plan.Steps(other.direction), other.op, other.index,
              Position(plan, epochs, d, k, rows + 1, other.epoch, other.direction))
    {
      if IndexOf(plan.Steps(d), other.op) == k {
        assert other.op == plan.Steps(d)[k].id;
      }
    }
  }

  lemma MarksInserted(checkpoints: map<Key, Checkpoint>, plan: Plan, epochs: nat, d: Direction, k: nat,
                      index: int, row: Checkpoint)
    requires Marks(checkpoints, plan, epochs, d, k)
    requires k < |plan.Steps(d)| && UniqueIds(plan.Steps(d))
    requires DigestOf(plan.Steps(d)[k], d, index) == Some(row.digest)
    ensures Marks(checkpoints[Key(epochs, d, plan.Steps(d)[k].id, index) := row], plan, epochs, d, k)
  {
    IndexOfUnique(plan.Steps(d), k);
  }

  lemma UnfinishedIntended(checkpoints: map<Key, Checkpoint>, epoch: nat, d: Direction, step: Step,
                           p: Progress, owner: nat, row: Checkpoint)
    requires Unfinished(checkpoints, epoch, d, step, p) && !Locked(d, step)
    requires p.rows == p.effects < |step.statements| && (p.rows > 0 ==> p.owner == owner)
    requires ClaimsVerified(checkpoints, epoch, d, step, p.rows)
    requires row.mark == Pending && row.runId == owner
    ensures Unfinished(checkpoints[Key(epoch, d, step.id, p.rows) := row], epoch, d, step,
                       p.(owner := owner, rows := p.rows + 1))
  {
  }

  /** Every claimed insert among the first `n` statements of a step is verified. */
  ghost predicate ClaimsVerified(checkpoints: map<Key, Checkpoint>, epoch: nat, d: Direction, step: Step, n: nat) {
    forall i :: 0 <= i < n && i < |step.statements| && step.statements[i].claim.Some? ==>
      Key(epoch, d, step.id, i) in checkpoints && checkpoints[Key(epoch, d, step.id, i)].mark == WriteVerified
  }

  lemma OwnedInserted(checkpoints: map<Key, Checkpoint>, receipts: seq<Receipt>, plan: Plan, key: Key, row: Checkpoint)
    requires Owned(checkpoints, receipts, plan)
    requires row.mark == Pending || !Claimed(plan, key) || HasReceipt(receipts, key)
    ensures Owned(checkpoints[key := row], receipts, plan)
  {
  }

  lemma UnfinishedSent(checkpoints: map<Key, Checkpoint>, epoch: nat, d: Direction, step: Step, p: Progress)
    requires Unfinished(checkpoints, epoch, d, step, p) && !Locked(d, step)
    requires p.rows == p.effects + 1
    ensures Unfinished(checkpoints, epoch, d, step, p.(effects := p.rows))
  {
  }

  lemma ShapeRemarked(checkpoints: map<Key, Checkpoint>, checkpoints': map<Key, Checkpoint>, plan: Plan,
                      epochs: nat, d: Direction, k: nat, rows: nat)
    requires Shape(checkpoints, plan, epochs, d, k, rows)
    requires forall key: Key :: key in checkpoints' <==> key in checkpoints
    ensures Shape(checkpoints', plan, epochs, d, k, rows)
  {
  }

  lemma UnfinishedVerified(checkpoints: map<Key, Checkpoint>, epoch: nat, d: Direction, step: Step, p: Progress, row: Checkpoint)
    requires Unfinished(checkpoints, epoch, d, step, p) && !Locked(d, step)
    requires p.rows == p.effects > 0
    requires row == checkpoints[Key(epoch, d, step.id, p.rows - 1)].(mark := WriteVerified)
    ensures Unfinished(checkpoints[Key(epoch, d, step.id, p.rows - 1) := row], epoch, d, step, p)
  {
  }

  /** `checkpoints'` is `checkpoints` with every row of one operation marked done. */
  ghost predicate AllDone(checkpoints: map<Key, Checkpoint>, checkpoints': map<Key, Checkpoint>,
                          epoch: nat, d: Direction, op: string) {
    forall key: Key ::
      && (key in checkpoints' <==> key in checkpoints)
      && (key in checkpoints ==>
            checkpoints'[key] == if key.epoch == epoch && key.direction == d && key.op == op
                                 then checkpoints[key].(mark := Done) else checkpoints[key])
  }

  lemma ShapeFinished(checkpoints: map<Key, Checkpoint>, checkpoints': map<Key, Checkpoint>, plan: Plan,
                      epochs: nat, d: Direction, k: nat)
    requires k < |plan.Steps(d)| && plan.Steps(d)[k].statements != []
    requires Shape(checkpoints, plan, epochs, d, k, |plan.Steps(d)[k].statements|)
    requires AllDone(checkpoints, checkpoints', epochs, d, plan.Steps(d)[k].id)
    ensures Shape(checkpoints', plan, epochs, d, k + 1, 0)
  {
    var n := |plan.Steps(d)[k].statements|;
    ShapeRemarked(checkpoints, checkpoints', plan, epochs, d, k, n);
    forall key: Key ensures
      Reached(plan.Steps(key.direction), key.op, key.index, Position(plan, epochs, d, k, n, key.epoch, key.direction)) ==
      Reached(plan.Steps(key.direction), key.op, key.index, Position(plan, epochs, d, k + 1, 0, key.epoch, key.direction))
    {
    }
  }

  lemma MarksFinished(checkpoints: map<Key, Checkpoint>, checkpoints': map<Key, Checkpoint>, plan: Plan,
                      epochs: nat, d: Direction, k: nat)
    requires k < |plan.Steps(d)| && Marks(checkpoints, plan, epochs, d, k)
    requires AllDone(checkpoints, checkpoints', epochs, d, plan.Steps(d)[k].id)
    ensures Marks(checkpoints', plan, epochs, d, k + 1)
  {
    forall key | key in checkpoints'
      ensures Digested(plan, key, checkpoints'[key].digest) && checkpoints'[key].mark == Done
    {
      assert key in checkpoints;
      if CurrentStep(plan, epochs, d, k, key) {
        assert key.op == plan.Steps(d)[k].id;
      }
    }
  }

  lemma OwnedFinished(checkpoints: map<Key, Checkpoint>, checkpoints': map<Key, Checkpoint>, receipts: seq<Receipt>,
                      plan: Plan, epoch: nat, d: Direction, k: nat)
    requires k < |plan.Steps(d)| && UniqueIds(plan.Steps(d))
    requires Owned(checkpoints, receipts, plan)
    requires AllDone(checkpoints, checkpoints', epoch, d, plan.Steps(d)[k].id)
    requires ClaimsReceived(receipts, epoch, d, plan.Steps(d)[k], |plan.Steps(d)[k].statements|)
    ensures Owned(checkpoints', receipts, plan)
  {
    IndexOfUnique(plan.Steps(d), k);
    forall key | key in checkpoints' && checkpoints'[key].mark != Pending && Claimed(plan, key)
      ensures HasReceipt(receipts, key)
    {
      assert key in checkpoints;
      if key.epoch == epoch && key.direction == d && key.op == plan.Steps(d)[k].id {
        assert key == Key(epoch, d, plan.Steps(d)[k].id, key.index);
      }
    }
  }

  /** Every claimed insert among the first `n` statements of a step is in, with the claimed count. */
  ghost predicate ClaimsReceived(receipts: seq<Receipt>, epoch: nat, d: Direction, step: Step, n: nat) {
    forall i :: 0 <= i < n && i < |step.statements| && step.statements[i].claim.Some? ==>
      HasReceipt(receipts, Key(epoch, d, step.id, i))
  }

  lemma ShapeGuarded(checkpoints: map<Key, Checkpoint>, plan: Plan, epochs: nat, d: Direction, k: nat, row: Checkpoint)
    requires Shape(checkpoints, plan, epochs, d, k, 0) && UniqueIds(plan.Steps(d)) && epochs > 0
    requires k < |plan.Steps(d)| && plan.Steps(d)[k].statements == []
    ensures Shape(checkpoints[Key(epochs, d, plan.Steps(d)[k].id, -1) := row], plan, epochs, d, k + 1, 0)
  {
    var key := Key(epochs, d, plan.Steps(d)[k].id, -1);
    IndexOfUnique(plan.Steps(d), k);
    forall other: Key ensures other in checkpoints[key := row] <==>
      Reached(plan.Steps(other.direction), other.op, other.index,
              Position(plan, epochs, d, k + 1, 0, other.epoch, other.direction))
    {
      if IndexOf(plan.Steps(d), other.op) == k {
        assert other.op == plan.Steps(d)[k].id;
      }
    }
  }

  lemma NoneCurrent(checkpoints: map<Key, Checkpoint>, plan: Plan, epochs: nat, d: Direction, k: nat)
    requires Shape(checkpoints, plan, epochs, d, k, 0) && Marks(checkpoints, plan, epochs, d, k)
    ensures forall key :: key in checkpoints ==> checkpoints[key].mark == Done
  {
    forall key | key in checkpoints ensures checkpoints[key].mark == Done {
      assert !CurrentStep(plan, epochs, d, k, key);
    }
  }

  lemma MarksGuarded(checkpoints: map<Key, Checkpoint>, plan: Plan, epochs: nat, d: Direction, k: nat, row: Checkpoint)
    requires Shape(checkpoints, plan, epochs, d, k, 0) && Marks(checkpoints, plan, epochs, d, k)
    requires k < |plan.Steps(d)| && UniqueIds(plan.Steps(d)) && row.mark == Done
    requires DigestOf(plan.Steps(d)[k], d, -1) == Some(row.digest)
    ensures Marks(checkpoints[Key(epochs, d, plan.Steps(d)[k].id, -1) := row], plan, epochs, d, k + 1)
  {
    IndexOfUnique(plan.Steps(d), k);
    NoneCurrent(checkpoints, plan, epochs, d, k);
  }

  lemma EmptyStepKeeps(plan: Plan, run: Run, k: nat, entry: Data, closed: set<Reviewed>)
    requires EntryHolds(plan, run, k, entry, closed)
    requires k < |plan.Steps(run.direction)| && plan.Steps(run.direction)[k].statements == []
    ensures EntryHolds(plan, run, k + 1, entry, closed)
  {
  }

  lemma EffectsBetween(checkpoints: map<Key, Checkpoint>, run: Run, data: Data, plan: Plan, q: Progress)
    requires q.steps <= |plan.Steps(run.direction)| && q.rows == q.effects == 0 && q.entry == data
    requires EntryHolds(plan, run, q.steps, q.entry, q.closed)
    ensures Effects(checkpoints, run, data, plan, q)
  {
  }

  // ---------- the writes ----------

  lemma Assemble(s: Store, plan: Plan, p: Progress)
    requires s.runs != []
    requires Runnable(plan, Last(s).direction) && Epochs(s.runs, plan, p.closed) && Reapplied(|s.runs|, s.events)
    requires Shape(s.checkpoints, plan, |s.runs|, Last(s).direction, p.steps, p.rows)
    requires Marks(s.checkpoints, plan, |s.runs|, Last(s).direction, p.steps)
    requires Effects(s.checkpoints, Last(s), s.data, plan, p)
    requires StatusHolds(Last(s), plan, p)
    requires Owned(s.checkpoints, s.receipts, plan)
    ensures Inv(s, plan, p)
  {
  }

  /** What the invariant says of the latest run and of where it stands. */
  lemma Facts(s: Store, plan: Plan, p: Progress)
    requires s.runs != [] && Inv(s, plan, p)
    ensures Last(s).epoch == |s.runs| && Last(s).checksum == plan.checksum
    ensures UniqueIds(plan.Steps(Last(s).direction))
    ensures StatusHolds(Last(s), plan, p)
    ensures p.steps <= |plan.Steps(Last(s).direction)|
    ensures p.steps == |plan.Steps(Last(s).direction)| ==> p.rows == p.effects == 0 && s.data == p.entry
    ensures EntryHolds(plan, Last(s), p.steps, p.entry, p.closed)
  {
  }

  lemma EntryKept(plan: Plan, run: Run, run': Run, steps: nat, entry: Data, closed: set<Reviewed>)
    requires EntryHolds(plan, run, steps, entry, closed) && SameRun(run, run') && run'.direction == run.direction
    ensures EntryHolds(plan, run', steps, entry, closed)
  {
    if Trusted(plan, run', closed) {
      assert Trusted(plan, run, closed);
    }
  }

  /** A status change of the latest run that keeps its promises keeps the invariant. */
  lemma StatusStep(s: Store, t: Store, plan: Plan, p: Progress)
    requires Inv(s, plan, p)
    requires SameHistory(s.runs, t.runs) && Last(t).direction == Last(s).direction && s.events <= t.events
    requires t == s.(runs := t.runs, events := t.events)
    requires StatusHolds(Last(t), plan, p)
    ensures Inv(t, plan, p)
  {
    hide Shape, Marks, Owned, Epochs, Reapplied, Unfinished, EntryHolds, StatusHolds;
    EventsGrow(|s.runs|, s.events, t.events);
    EpochsKept(s.runs, t.runs, plan, p.closed);
    EntryKept(plan, Last(s), Last(t), p.steps, p.entry, p.closed);
    Assemble(t, plan, p);
  }

  /** An applying run whose open checkpoint is unheard of. */
  lemma Unheard(s: Store, plan: Plan, p: Progress)
    requires s.runs != [] && Inv(s, plan, p) && Last(s).status == Applying && p.rows > 0
    ensures Inv(s, plan, p.(unheard := true))
  {
    hide Shape, Marks, Owned, Epochs, Reapplied, EntryHolds;
    Assemble(s, plan, p.(unheard := true));
  }

  lemma EventLogged(s: Store, t: Store, plan: Plan, p: Progress)
    requires s.runs != [] && Inv(s, plan, p)
    requires s.events <= t.events && t == s.(events := t.events)
    ensures Inv(t, plan, p)
  {
    hide Shape, Marks, Owned, Epochs, Reapplied, Effects, StatusHolds;
    EventsGrow(|s.runs|, s.events, t.events);
    Assemble(t, plan, p);
  }

  /** Starting the rollback of an applied epoch. */
  lemma TurnBack(s: Store, t: Store, plan: Plan, p: Progress, owner: nat)
    requires Inv(s, plan, p)
    requires SameHistory(s.runs, t.runs) && s.events <= t.events
    requires Last(s).status == AppliedSuccess && !Last(s).baseline
    requires Last(t).direction == Rollback && Last(t).status == Applying
    requires t == s.(runs := t.runs, events := t.events)
    requires UniqueIds(plan.rollback)
    ensures Inv(t, plan, p.Begin(s.data, owner))
  {
    hide Shape, Marks, Owned, Epochs, Reapplied, Unfinished;
    EventsGrow(|s.runs|, s.events, t.events);
    EpochsKept(s.runs, t.runs, plan, p.closed);
    ShapeTurned(s.checkpoints, plan, |s.runs|);
    MarksTurned(s.checkpoints, plan, |s.runs|);
    EffectsBetween(t.checkpoints, Last(t), t.data, plan, p.Begin(s.data, owner));
    Assemble(t, plan, p.Begin(s.data, owner));
  }

  /** Opening the first epoch. */
  lemma OpenFirst(s: Store, t: Store, plan: Plan, p: Progress, run: Run)
    requires s.runs == [] && Inv(s, plan, p) && UniqueIds(plan.upgrade)
    requires t == s.(runs := [run], events := t.events)
    requires run.epoch == 1 && run.checksum == plan.checksum && run.status == Applying
    requires run.direction == Upgrade && run.origin == s.data
    ensures Inv(t, plan, p.Begin(s.data, run.runId))
  {
    EffectsBetween(t.checkpoints, run, t.data, plan, p.Begin(s.data, run.runId));
    Assemble(t, plan, p.Begin(s.data, run.runId));
  }

  /** A finished rollback hands its data on to the next epoch. */
  lemma HandOver(s: Store, plan: Plan, p: Progress, run: Run)
    requires s.runs != [] && Inv(s, plan, p)
    requires Last(s).status == RolledBack && run.origin == s.data
    ensures p.steps == |plan.rollback| && p.rows == 0 && Last(s).direction == Rollback
    ensures LeftBehind(plan, Last(s), run, p.closed)
  {
    hide Shape, Marks, Owned, Epochs, Reapplied, Unfinished;
  }

  /** Opening the next epoch after a rollback. */
  lemma OpenNext(s: Store, t: Store, plan: Plan, p: Progress, run: Run)
    requires s.runs != [] && Inv(s, plan, p) && UniqueIds(plan.upgrade)
    requires Last(s).status == RolledBack && ReapplyLogged(t.events, |s.runs| + 1)
    requires t == s.(runs := s.runs + [run], events := t.events) && s.events <= t.events
    requires run.epoch == |t.runs| && run.checksum == plan.checksum && run.status == Applying
    requires run.direction == Upgrade && run.origin == s.data
    ensures Inv(t, plan, p.Begin(s.data, run.runId))
  {
    hide Shape, Marks, Owned, Epochs, Effects, LeftBehind, Reapplied, ReapplyLogged;
    Facts(s, plan, p);
    HandOver(s, plan, p, run);
    EventsGrow(|s.runs|, s.events, t.events);
    ReappliedNext(|s.runs|, t.events);
    ShapeClosed(s.checkpoints, plan, |s.runs|);
    MarksClosed(s.checkpoints, plan, |s.runs|);
    EpochsExtended(s.runs, run, plan, p.closed);
    EffectsBetween(t.checkpoints, run, t.data, plan, p.Begin(s.data, run.runId));
    Assemble(t, plan, p.Begin(s.data, run.runId));
  }

  ghost function StepAt(s: Store, plan: Plan, p: Progress): Step
    requires s.runs != [] && p.steps < |plan.Steps(Last(s).direction)|
  {
    plan.Steps(Last(s).direction)[p.steps]
  }

  ghost predicate InStep(s: Store, plan: Plan, p: Progress) {
    && s.runs != []
    && Inv(s, plan, p)
    && p.steps < |plan.Steps(Last(s).direction)|
  }

  ghost function KeyAt(s: Store, plan: Plan, p: Progress, index: int): Key
    requires s.runs != [] && p.steps < |plan.Steps(Last(s).direction)|
  {
    Key(|s.runs|, Last(s).direction, StepAt(s, plan, p).id, index)
  }

  /** What the invariant says of the step in progress. */
  lemma StepFacts(s: Store, plan: Plan, p: Progress)
    requires InStep(s, plan, p)
    ensures Unfinished(s.checkpoints, |s.runs|, Last(s).direction, StepAt(s, plan, p), p)
    ensures s.data == Prefix(StepAt(s, plan, p).statements, p.effects, p.entry)
  {
  }

  /** The next checkpoint of the current step is not in the table yet, so inserting it cannot clash. */
  lemma NextIsFresh(s: Store, plan: Plan, p: Progress, index: int)
    requires InStep(s, plan, p)
    requires index < 0 || index >= p.rows
    ensures KeyAt(s, plan, p, index) !in s.checkpoints
  {
    IndexOfUnique(plan.Steps(Last(s).direction), p.steps);
  }

  /** Committing the intent to run the next statement of a step that is not locked. */
  lemma IntendStep(s: Store, t: Store, plan: Plan, p: Progress, owner: nat, row: Checkpoint)
    requires InStep(s, plan, p) && Last(s).status == Applying
    requires !Locked(Last(s).direction, StepAt(s, plan, p))
    requires p.rows == p.effects < |StepAt(s, plan, p).statements|
    requires ClaimsVerified(s.checkpoints, |s.runs|, Last(s).direction, StepAt(s, plan, p), p.rows)
    requires owner == Last(s).runId == row.runId && (p.rows > 0 ==> p.owner == owner)
    requires DigestOf(StepAt(s, plan, p), Last(s).direction, p.rows) == Some(row.digest) && row.mark == Pending
    requires t == s.(checkpoints := s.checkpoints[KeyAt(s, plan, p, p.rows) := row])
    ensures Inv(t, plan, p.(owner := owner, rows := p.rows + 1))
  {
    hide Shape, Marks, Owned, Epochs, Reapplied, Unfinished, ClaimsVerified, UniqueIds, EntryHolds;
    var d, n, key := Last(s).direction, |s.runs|, KeyAt(s, plan, p, p.rows);
    Facts(s, plan, p);
    ShapeIntended(s.checkpoints, plan, n, d, p.steps, p.rows, row);
    MarksInserted(s.checkpoints, plan, n, d, p.steps, p.rows, row);
    UnfinishedIntended(s.checkpoints, n, d, StepAt(s, plan, p), p, owner, row);
    OwnedInserted(s.checkpoints, s.receipts, plan, key, row);
    Assemble(t, plan, p.(owner := owner, rows := p.rows + 1));
  }

  /** The effect of the statement whose intent was committed last. */
  lemma EffectStep(s: Store, t: Store, plan: Plan, p: Progress)
    requires InStep(s, plan, p)
    requires !Locked(Last(s).direction, StepAt(s, plan, p)) && p.rows == p.effects + 1
    requires s.receipts <= t.receipts && p.effects < |StepAt(s, plan, p).statements|
    requires t == s.(data := StepAt(s, plan, p).statements[p.effects].effect(s.data), receipts := t.receipts)
    ensures Inv(t, plan, p.(effects := p.rows))
  {
    hide Shape, Marks, Owned, Epochs, Reapplied, Unfinished, UniqueIds, EntryHolds;
    Facts(s, plan, p);
    UnfinishedSent(s.checkpoints, |s.runs|, Last(s).direction, StepAt(s, plan, p), p);
    ReceiptsGrow(s.checkpoints, s.receipts, t.receipts, plan);
    Assemble(t, plan, p.(effects := p.rows));
  }

  /** Marking a claimed insert verified, in the transaction that holds the insert. */
  lemma VerifyStep(s: Store, t: Store, plan: Plan, p: Progress)
    requires InStep(s, plan, p)
    requires !Locked(Last(s).direction, StepAt(s, plan, p)) && p.rows == p.effects > 0
    requires p.rows <= |StepAt(s, plan, p).statements|
    requires var key := KeyAt(s, plan, p, p.rows - 1);
      && HasReceipt(s.receipts, key)
      && key in s.checkpoints
      && t == s.(checkpoints := s.checkpoints[key := s.checkpoints[key].(mark := WriteVerified)])
    ensures Inv(t, plan, p)
  {
    hide Shape, Marks, Owned, Epochs, Reapplied, Unfinished, UniqueIds, HasReceipt;
    var d, n, key := Last(s).direction, |s.runs|, KeyAt(s, plan, p, p.rows - 1);
    Facts(s, plan, p);
    DigestKept(s.checkpoints, plan, n, d, p.steps, p.rows - 1);
    ShapeRemarked(s.checkpoints, t.checkpoints, plan, n, d, p.steps, p.rows);
    MarksInserted(s.checkpoints, plan, n, d, p.steps, p.rows - 1, t.checkpoints[key]);
    UnfinishedVerified(s.checkpoints, n, d, StepAt(s, plan, p), p, t.checkpoints[key]);
    OwnedInserted(s.checkpoints, s.receipts, plan, key, t.checkpoints[key]);
    Assemble(t, plan, p);
  }

  lemma DigestKept(checkpoints: map<Key, Checkpoint>, plan: Plan, epochs: nat, d: Direction, k: nat, index: int)
    requires Marks(checkpoints, plan, epochs, d, k) && k < |plan.Steps(d)| && UniqueIds(plan.Steps(d))
    requires Key(epochs, d, plan.Steps(d)[k].id, index) in checkpoints
    ensures DigestOf(plan.Steps(d)[k], d, index) ==
      Some(checkpoints[Key(epochs, d, plan.Steps(d)[k].id, index)].digest)
  {
    IndexOfUnique(plan.Steps(d), k);
  }

  /** Marking every checkpoint of the current step done finishes it. */
  lemma FinishStep(s: Store, t: Store, plan: Plan, p: Progress)
    requires InStep(s, plan, p) && Last(s).status in {Applying, UnknownRequiresReconciliation}
    requires p.rows == |StepAt(s, plan, p).statements| > 0
    requires AllDone(s.checkpoints, t.checkpoints, |s.runs|, Last(s).direction, StepAt(s, plan, p).id)
    requires ClaimsReceived(t.receipts, |s.runs|, Last(s).direction, StepAt(s, plan, p), p.rows)
    requires s.receipts <= t.receipts && t.runs == s.runs && t.events == s.events
    requires EntryHolds(plan, Last(s), p.steps + 1, t.data, p.closed)
    ensures Inv(t, plan, p.Next(t.data))
  {
    hide Shape, Marks, Owned, Epochs, Reapplied, Unfinished, EntryHolds, UniqueIds, AllDone, ClaimsReceived;
    var d, n, q := Last(s).direction, |s.runs|, p.Next(t.data);
    Facts(s, plan, p);
    ShapeFinished(s.checkpoints, t.checkpoints, plan, n, d, p.steps);
    MarksFinished(s.checkpoints, t.checkpoints, plan, n, d, p.steps);
    ReceiptsGrow(s.checkpoints, s.receipts, t.receipts, plan);
    OwnedFinished(s.checkpoints, t.checkpoints, t.receipts, plan, n, d, p.steps);
    EffectsBetween(t.checkpoints, Last(t), t.data, plan, q);
    Assemble(t, plan, q);
  }

  /** A step without SQL is finished by its one checkpoint. */
  lemma GuardStep(s: Store, t: Store, plan: Plan, p: Progress, row: Checkpoint)
    requires InStep(s, plan, p) && Last(s).status == Applying
    requires StepAt(s, plan, p).statements == [] && p.rows == 0
    requires DigestOf(StepAt(s, plan, p), Last(s).direction, -1) == Some(row.digest) && row.mark == Done
    requires t == s.(checkpoints := s.checkpoints[KeyAt(s, plan, p, -1) := row])
    ensures Inv(t, plan, p.Next(t.data))
  {
    hide Shape, Marks, Owned, Epochs, Reapplied, UniqueIds, EntryHolds;
    var d, n, q := Last(s).direction, |s.runs|, p.Next(t.data);
    Facts(s, plan, p);
    StepFacts(s, plan, p);
    ShapeGuarded(s.checkpoints, plan, n, d, p.steps, row);
    MarksGuarded(s.checkpoints, plan, n, d, p.steps, row);
    OwnedInserted(s.checkpoints, s.receipts, plan, KeyAt(s, plan, p, -1), row);
    EmptyStepKeeps(plan, Last(s), p.steps, p.entry, p.closed);
    EffectsBetween(t.checkpoints, Last(t), t.data, plan, q);
    Assemble(t, plan, q);
  }

  /** The first `i` checkpoints of a locked step are written, and nothing else has changed. */
  ghost predicate Intending(s: Store, t: Store, plan: Plan, p: Progress, owner: nat, i: nat)
    requires s.runs != [] && p.steps < |plan.Steps(Last(s).direction)|
  {
    var d, n := Last(s).direction, |s.runs|;
    && t == s.(checkpoints := t.checkpoints)
    && Shape(t.checkpoints, plan, n, d, p.steps, i)
    && Marks(t.checkpoints, plan, n, d, p.steps)
    && Owned(t.checkpoints, t.receipts, plan)
    && RowsPending(t.checkpoints, n, d, StepAt(s, plan, p).id, owner, i)
  }

  ghost predicate RowsPending(checkpoints: map<Key, Checkpoint>, epoch: nat, d: Direction, op: string, owner: nat, n: nat) {
    forall h :: 0 <= h < n ==>
      var key := Key(epoch, d, op, h);
      key in checkpoints && checkpoints[key].mark == Pending && checkpoints[key].runId == owner
  }

  lemma IntendLocked(s: Store, t: Store, t': Store, plan: Plan, p: Progress, owner: nat, i: nat, row: Checkpoint)
    requires s.runs != [] && p.steps < |plan.Steps(Last(s).direction)| && UniqueIds(plan.Steps(Last(s).direction))
    requires Intending(s, t, plan, p, owner, i) && i < |StepAt(s, plan, p).statements|
    requires DigestOf(StepAt(s, plan, p), Last(s).direction, i) == Some(row.digest)
    requires row.mark == Pending && row.runId == owner
    requires t' == t.(checkpoints := t.checkpoints[KeyAt(s, plan, p, i) := row])
    ensures Intending(s, t', plan, p, owner, i + 1)
  {
    hide Shape, Marks, Owned, UniqueIds;
    var d, n := Last(s).direction, |s.runs|;
    ShapeIntended(t.checkpoints, plan, n, d, p.steps, i, row);
    MarksInserted(t.checkpoints, plan, n, d, p.steps, i, row);
    OwnedInserted(t.checkpoints, t.receipts, plan, KeyAt(s, plan, p, i), row);
  }

  /** All checkpoints of a locked step are written before any of its statements is sent. */
  lemma IntendedLocked(s: Store, t: Store, plan: Plan, p: Progress, owner: nat)
    requires InStep(s, plan, p) && Last(s).status == Applying && Last(s).runId == owner
    requires p.rows == p.effects == 0 && Locked(Last(s).direction, StepAt(s, plan, p))
    requires Intending(s, t, plan, p, owner, |StepAt(s, plan, p).statements|)
    ensures Inv(t, plan, p.(owner := owner, rows := |StepAt(s, plan, p).statements|))
  {
    hide Shape, Marks, Owned, Epochs, Reapplied, UniqueIds, EntryHolds;
    Facts(s, plan, p);
    var q := p.(owner := owner, rows := |StepAt(s, plan, p).statements|);
    assert Unfinished(t.checkpoints, |s.runs|, Last(s).direction, StepAt(s, plan, p), q);
    Assemble(t, plan, q);
  }

  lemma IntendNone(s: Store, plan: Plan, p: Progress, owner: nat)
    requires InStep(s, plan, p) && p.rows == 0
    ensures UniqueIds(plan.Steps(Last(s).direction))
    ensures Intending(s, s, plan, p, owner, 0)
  {
  }
}
