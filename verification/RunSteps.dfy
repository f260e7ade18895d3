/** One step of a run on a backend whose DDL cannot be rolled back (MySQL, MariaDB): checkpoint, effect, proof. */
module NontransactionalSteps {
  import opened Options
  import opened Plans
  import opened Journal
  import opened JournalSteps
  import opened Connections

  /** The run being executed; `runs` is the journal, which no step of the run touches. */
  datatype Context = Context(plan: Plan, direction: Direction, epoch: nat, runId: nat, runs: seq<Run>) {
    function Steps(): seq<Step> {
      plan.Steps(direction)
    }
  }

  ghost predicate Active(s: Store, c: Context) {
    && s.runs == c.runs != []
    && var run := Last(s);
    && run.status == Applying && run.epoch == c.epoch == |s.runs|
    && run.direction == c.direction && run.runId == c.runId
  }

  /** A checkpoint or a statement of the step at index `k`. */
  function StepKey(c: Context, k: nat, index: int): Key
    requires k < |c.Steps()|
  {
    Key(c.epoch, c.direction, c.Steps()[k].id, index)
  }

  /** What every piece of a run keeps, however it ends. */
  ghost predicate Safe(db: Connection, c: Context)
    reads db
  {
    db.Valid(c.plan) && Active(db.durable, c)
  }

  /** An error before anything could have happened leaves no open checkpoint behind but one unheard of. */
  ghost predicate Harmless(db: Connection, r: Signal, possible: bool)
    reads db
  {
    r.Raised? && !possible && db.progress.rows > 0 ==> db.progress.unheard
  }

  /**
   * The commit of the first intent of a run that had found no checkpoint took effect, at position `p`. Either
   * its reply was lost, and the run believes that nothing has happened, or the process died.
   */
  ghost predicate Cut(db: Connection, r: Signal, possible: bool, last: Fault, p: Progress)
    reads db
  {
    && db.faults == []
    && match last
       case FailsAfter => r == Raised(OtherError) && !possible && db.progress == p.(unheard := true)
       case DiesAfter => r.Crashed? && db.progress == p
       case _ => false
  }

  /** The position after the intent of the first statement of the step in progress. */
  ghost function FirstIntent(p: Progress, c: Context): Progress {
    p.(rows := 1, owner := c.runId)
  }

  method InsertCheckpoint(db: Connection, c: Context, k: nat, index: int, mark: Mark, ghost position: Progress)
    returns (r: Signal)
    requires k < |c.Steps()|
    requires DigestOf(c.Steps()[k], c.direction, index).Some?
    modifies db`faults, db`working, db`next
    ensures r.Ok? ==>
      && db.next == position
      && db.working == old(db.working).(checkpoints := old(db.working).checkpoints[StepKey(c, k, index) :=
           Checkpoint(c.runId, DigestOf(c.Steps()[k], c.direction, index).value, mark)])
    ensures r.Raised? ==> r.failure == OtherError
    ensures old(db.faults) == [] ==> r.Ok? && db.faults == []
    ensures forall n: nat, last :: n >= 1 && CutAt(old(db.faults), n, last) ==> r.Ok? && CutAt(db.faults, n - 1, last)
  {
    var row := Checkpoint(c.runId, DigestOf(c.Steps()[k], c.direction, index).value, mark);
    r := db.Write(db.working.(checkpoints := db.working.checkpoints[StepKey(c, k, index) := row]), position);
  }

  /** The UPDATE that marks one checkpoint; a key that is absent matches no row. */
  method FinishCheckpoint(db: Connection, c: Context, k: nat, index: int, mark: Mark, ghost position: Progress)
    returns (r: Signal)
    requires k < |c.Steps()|
    modifies db`faults, db`working, db`next
    ensures r.Ok? ==>
      && db.next == position
      && var key := StepKey(c, k, index);
      && db.working == if key in old(db.working).checkpoints
           then old(db.working).(checkpoints := old(db.working).checkpoints[key := old(db.working).checkpoints[key].(mark := mark)])
           else old(db.working)
    ensures r.Raised? ==> r.failure == OtherError
    ensures old(db.faults) == [] ==> r.Ok? && db.faults == []
  {
    var key := StepKey(c, k, index);
    var s := db.working;
    if key in s.checkpoints {
      s := s.(checkpoints := s.checkpoints[key := s.checkpoints[key].(mark := mark)]);
    }
    r := db.Write(s, position);
  }

  /** The row count an insert claims; the proof needs an INSERT on a transactional table. */
  method ExpectedInserts(db: Connection, statement: Statement) returns (r: Signal, expected: Option<int>)
    modifies db`faults
    ensures r.Ok? ==> expected == (if statement.claim.Some? then Some(statement.claim.value(db.working.data)) else None)
    ensures r.Ok? ==> Claimable(statement, db.working.data)
    ensures r.Raised? ==> r.failure == OtherError
    ensures old(db.faults) == [] ==> db.faults == [] && !r.Crashed? && (Claimable(statement, db.working.data) ==> r.Ok?)
  {
    expected := None;
    if statement.claim.None? { return Ok, None; }
    if statement.keyword != Insert || !statement.buffered { return Raised(OtherError), None; }
    :- db.Probe();
    var value := statement.claim.value(db.working.data);
    if value < 0 { return Raised(OtherError), None; }
    return Ok, Some(value);
  }

  /** The session is between two statements: `n` of them are done in its view, none in doubt. */
  ghost predicate Between(db: Connection, c: Context, k: nat, n: nat)
    requires k < |c.Steps()|
    reads db
  {
    && db.Ready(c.plan) && Active(db.working, c)
    && db.next.steps == k && db.next.rows == db.next.effects == n && !db.next.unheard
    && (n > 0 ==> db.next.owner == c.runId)
    && ClaimsVerified(db.working.checkpoints, c.epoch, c.direction, c.Steps()[k], n)
  }

  /** Where a commit of intents leaves the store when its reply is lost: a run that was touched knows anyway. */
  ghost function Unanswered(p: Progress, touched: bool): Progress {
    if touched then p else p.(unheard := true)
  }

  /** Committing the checkpoint of the next statement, before it is sent. */
  method Intend(db: Connection, c: Context, k: nat, i: nat, ghost touched: bool) returns (r: Signal)
    requires k < |c.Steps()| && i < |c.Steps()[k].statements| && !Locked(c.direction, c.Steps()[k])
    requires Safe(db, c) && Between(db, c, k, i)
    modifies db`faults, db`durable, db`working, db`sent, db`progress, db`next
    ensures Safe(db, c) && db.sent == old(db.sent)
    ensures r.Ok? ==>
      && db.Clean(c.plan)
      && db.next.steps == k && db.next.effects == i && db.next.rows == i + 1
      && db.next.owner == c.runId && !db.next.unheard
      && ClaimsVerified(db.working.checkpoints, c.epoch, c.direction, c.Steps()[k], i)
      && StepKey(c, k, i) !in db.sent
    ensures r.Raised? && !touched ==> db.progress == old(db.progress) || db.progress.unheard
    ensures db.progress.unheard && !old(db.progress.unheard) ==> r.Raised? && !touched
    ensures r.Raised? ==> r.failure == OtherError
    ensures old(db.faults) == [] ==> r.Ok? && db.faults == []
    ensures r.Ok? ==> db.next.entry == old(db.next.entry)
    ensures forall last :: !touched && i == 0 && CutAt(old(db.faults), 2, last) ==>
      Cut(db, r, false, last, FirstIntent(old(db.next), c))
  {
    hide Inv, ClaimsVerified, Recorded, Locked;
    :- db.Probe();
    ghost var s, p := db.working, db.next;
    NextIsFresh(s, c.plan, p, i);
    ClaimsUndisturbed(s.checkpoints, c, k, i, Pending);
    :- InsertCheckpoint(db, c, k, i, Pending, p.(owner := c.runId, rows := i + 1));
    RecordedRun(s, db.sent, db.freshId);
    RecordedIntent(s, db.sent, db.freshId, StepKey(c, k, i), db.working.checkpoints[StepKey(c, k, i)]);
    IntendStep(s, db.working, c.plan, p, c.runId, db.working.checkpoints[StepKey(c, k, i)]);
    Unheard(db.working, c.plan, db.next);
    r := db.Commit(c.plan, Unanswered(db.next, touched));
  }

  /** The session is right after sending statement `i` of a step that is not locked. */
  ghost predicate JustSent(db: Connection, c: Context, k: nat, i: nat)
    requires k < |c.Steps()|
    reads db
  {
    && db.Ready(c.plan) && Active(db.working, c)
    && db.next.steps == k && db.next.effects == db.next.rows == i + 1
    && db.next.owner == c.runId && !db.next.unheard
    && ClaimsVerified(db.working.checkpoints, c.epoch, c.direction, c.Steps()[k], i)
  }

  /** Sending the statement whose intent was committed. */
  method SendNext(db: Connection, c: Context, k: nat, i: nat) returns (r: Signal, expected: Option<int>, affected: int)
    requires k < |c.Steps()| && i < |c.Steps()[k].statements| && !Locked(c.direction, c.Steps()[k])
    requires Safe(db, c) && db.Clean(c.plan)
    requires db.next.steps == k && db.next.effects == i && db.next.rows == i + 1
    requires db.next.owner == c.runId && !db.next.unheard
    requires ClaimsVerified(db.working.checkpoints, c.epoch, c.direction, c.Steps()[k], i) && StepKey(c, k, i) !in db.sent
    modifies db`faults, db`durable, db`working, db`sent, db`progress, db`next
    ensures Safe(db, c)
    ensures db.sent == old(db.sent) || db.sent == old(db.sent) + [StepKey(c, k, i)]
    ensures r.Ok? ==>
      && JustSent(db, c, k, i)
      && expected.Some? == c.Steps()[k].statements[i].claim.Some?
      && Receipt(StepKey(c, k, i), affected, expected) in db.working.receipts
    ensures r.Raised? ==> r.failure == OtherError
    ensures old(db.faults) == [] ==> db.faults == [] && !r.Crashed?
    ensures
      var step := c.Steps()[k];
      old(db.faults) == [] && Claimable(step.statements[i], old(db.working.data)) ==> r.Ok?
    ensures r.Ok? ==> Claimable(c.Steps()[k].statements[i], old(db.working.data))
    ensures db.progress.steps == k && db.progress.rows == i + 1
    ensures r.Ok? ==> db.next.entry == old(db.next.entry) && affected == c.Steps()[k].statements[i].affected(old(db.working.data))
    ensures r.Ok? && expected.Some? ==> expected.value == c.Steps()[k].statements[i].claim.value(old(db.working.data))
  {
    hide Inv;
    var statement, key := c.Steps()[k].statements[i], StepKey(c, k, i);
    affected := 0;
    expected :- ExpectedInserts(db, statement);
    ghost var s, p := db.working, db.next;
    CurrentRow(s, c, p, i);
    ghost var after := WithEffect(s, statement, key, expected);
    assert Receipt(key, statement.affected(s.data), expected) == after.receipts[|after.receipts| - 1];
    EffectStep(s, after, c.plan, p);
    affected :- db.Send(statement, key, expected, p.(effects := i + 1));
    r := Ok;
  }

  /** Marking a claimed insert verified and committing it together with the mark. */
  method VerifyInsert(db: Connection, c: Context, k: nat, i: nat) returns (r: Signal)
    requires k < |c.Steps()| && i < |c.Steps()[k].statements| && !Locked(c.direction, c.Steps()[k])
    requires Safe(db, c) && JustSent(db, c, k, i)
    requires HasReceipt(db.working.receipts, StepKey(c, k, i))
    modifies db`faults, db`durable, db`working, db`sent, db`progress, db`next
    ensures Safe(db, c) && db.sent == old(db.sent)
    ensures r.Ok? ==> Between(db, c, k, i + 1) && db.progress == db.next
    ensures r.Raised? ==> r.failure == OtherError
    ensures old(db.faults) == [] ==> r.Ok? && db.faults == []
    ensures r.Ok? ==> db.next.entry == old(db.next.entry)
  {
    hide Inv;
    ghost var s, p := db.working, db.next;
    CurrentRow(s, c, p, i);
    :- FinishCheckpoint(db, c, k, i, WriteVerified, p);
    VerifyStep(s, db.working, c.plan, p);
    r := db.Commit(c.plan, db.next);
  }

  /** One statement of a step that is not locked: intent, effect, ownership. */
  method PlainStatement(db: Connection, c: Context, k: nat, i: nat, touched: bool) returns (r: Signal, possible: bool)
    requires k < |c.Steps()| && i < |c.Steps()[k].statements| && !Locked(c.direction, c.Steps()[k])
    requires Safe(db, c) && Between(db, c, k, i)
    modifies db`faults, db`durable, db`working, db`sent, db`progress, db`next
    ensures Safe(db, c)
    ensures r.Ok? ==> Between(db, c, k, i + 1)
    ensures r.Raised? && !possible ==> db.progress == old(db.progress) || db.progress.unheard
    ensures !possible ==> !touched && db.sent == old(db.sent)
    ensures OnlyThisRun(old(db.sent), db.sent, c)
    ensures r.Ok? ==> possible
    ensures old(db.faults) == [] ==> db.faults == [] && !r.Crashed?
    ensures
      var step := c.Steps()[k];
      var d := Prefix(step.statements, i, old(db.next.entry));
      && (r.Ok? ==> ClaimMet(step.statements[i], d))
      && (r == Raised(OwnershipError) ==> Claimable(step.statements[i], d) && !ClaimMet(step.statements[i], d))
      && (old(db.faults) == [] ==>
            && possible && db.progress.steps == k && db.progress.rows > 0
            && (ClaimMet(step.statements[i], d) ==> r.Ok?)
            && (Claimable(step.statements[i], d) && !ClaimMet(step.statements[i], d) ==> r == Raised(OwnershipError)))
    ensures r.Ok? ==> db.next.entry == old(db.next.entry)
    ensures forall last :: !touched && i == 0 && CutAt(old(db.faults), 2, last) ==>
      Cut(db, r, possible, last, FirstIntent(old(db.next), c))
  {
    hide Inv, Connection.Books, Prefix, ClaimsVerified;
    possible := touched;
    :- Intend(db, c, k, i, touched);
    possible := true;
    DataAt(db.working, c, db.next);
    var expected, affected :- SendNext(db, c, k, i);
    if expected.Some? {
      if expected != Some(affected) { return Raised(OwnershipError), true; }
      :- VerifyInsert(db, c, k, i);
    } else {
      NothingClaimed(db.working.checkpoints, c, k, i);
    }
    r := db.Probe();
  }

  lemma ClaimsUndisturbed(checkpoints: map<Key, Checkpoint>, c: Context, k: nat, i: nat, mark: Mark)
    requires k < |c.Steps()| && i < |c.Steps()[k].statements|
    requires ClaimsVerified(checkpoints, c.epoch, c.direction, c.Steps()[k], i)
    ensures
      var row := Checkpoint(c.runId, DigestOf(c.Steps()[k], c.direction, i).value, mark);
      ClaimsVerified(checkpoints[StepKey(c, k, i) := row], c.epoch, c.direction, c.Steps()[k], i)
  {
  }

  lemma NothingClaimed(checkpoints: map<Key, Checkpoint>, c: Context, k: nat, i: nat)
    requires k < |c.Steps()| && i < |c.Steps()[k].statements| && c.Steps()[k].statements[i].claim.None?
    requires ClaimsVerified(checkpoints, c.epoch, c.direction, c.Steps()[k], i)
    ensures ClaimsVerified(checkpoints, c.epoch, c.direction, c.Steps()[k], i + 1)
  {
  }

  /** The user tables in the middle of a step. */
  lemma DataAt(s: Store, c: Context, p: Progress)
    requires Active(s, c) && Inv(s, c.plan, p) && p.steps < |c.Steps()|
    ensures p.effects <= |c.Steps()[p.steps].statements|
    ensures s.data == Prefix(c.Steps()[p.steps].statements, p.effects, p.entry)
    ensures p.unheard ==> p.rows > 0
  {
  }

  lemma CurrentRow(s: Store, c: Context, p: Progress, i: nat)
    requires Active(s, c) && Inv(s, c.plan, p)
    requires p.steps < |c.Steps()| && i < p.rows
    ensures StepKey(c, p.steps, i) in s.checkpoints && s.checkpoints[StepKey(c, p.steps, i)].runId == p.owner
  {
  }

  /** Every guard is queried in turn; the first that does not hold is an error. */
  method RunGuards(db: Connection, guards: seq<Data -> bool>) returns (r: Signal)
    modifies db`faults
    ensures r.Ok? ==> Passes(guards, db.working.data)
    ensures r.Raised? ==> r.failure == OtherError
    ensures old(db.faults) == [] ==> db.faults == [] && !r.Crashed? && (Passes(guards, db.working.data) ==> r.Ok?)
    ensures guards == [] ==> r.Ok? && db.faults == old(db.faults)
  {
    for i := 0 to |guards|
      invariant forall h :: 0 <= h < i ==> guards[h](db.working.data)
      invariant old(db.faults) == [] ==> db.faults == []
      invariant i == 0 ==> db.faults == old(db.faults)
    {
      :- db.Probe();
      if !guards[i](db.working.data) { return Raised(OtherError); }
    }
    r := Ok;
  }

  /** `checkpoints'` is `checkpoints` with the first `n` rows of one operation marked done. */
  ghost predicate DoneBelow(checkpoints: map<Key, Checkpoint>, checkpoints': map<Key, Checkpoint>,
                            epoch: nat, d: Direction, op: string, n: nat) {
    forall key: Key ::
      && (key in checkpoints' <==> key in checkpoints)
      && (key in checkpoints ==>
            checkpoints'[key] ==
              if key.epoch == epoch && key.direction == d && key.op == op && 0 <= key.index < n
              then checkpoints[key].(mark := Done) else checkpoints[key])
  }

  ghost predicate RowsWithin(checkpoints: map<Key, Checkpoint>, c: Context, k: nat, n: nat)
    requires k < |c.Steps()|
  {
    forall key :: key in checkpoints && key == StepKey(c, k, key.index) ==> 0 <= key.index < n
  }

  /** The final updates of a step, one checkpoint at a time. */
  method MarkDone(db: Connection, c: Context, k: nat, ghost position: Progress) returns (r: Signal)
    requires k < |c.Steps()|
    requires RowsWithin(db.working.checkpoints, c, k, |c.Steps()[k].statements|)
    modifies db`faults, db`working, db`next
    ensures r.Ok? && c.Steps()[k].statements != [] ==>
      && db.next == position
      && AllDone(old(db.working.checkpoints), db.working.checkpoints, c.epoch, c.direction, c.Steps()[k].id)
      && db.working == old(db.working).(checkpoints := db.working.checkpoints)
    ensures r.Raised? ==> r.failure == OtherError
    ensures old(db.faults) == [] ==> r.Ok? && db.faults == []
  {
    var n := |c.Steps()[k].statements|;
    for i := 0 to n
      invariant DoneBelow(old(db.working.checkpoints), db.working.checkpoints, c.epoch, c.direction, c.Steps()[k].id, i)
      invariant db.working == old(db.working).(checkpoints := db.working.checkpoints)
      invariant i > 0 ==> db.next == position
      invariant old(db.faults) == [] ==> db.faults == []
    {
      :- FinishCheckpoint(db, c, k, i, Done, position);
    }
    r := Ok;
  }

  /** A step whose statements all ran has the whole effect of the step. */
  lemma WholeEffect(s: Store, plan: Plan, p: Progress)
    requires InStep(s, plan, p) && p.effects == |StepAt(s, plan, p).statements|
    ensures EntryHolds(plan, Last(s), p.steps + 1, s.data, p.closed)
  {
  }

  /** A verified insert has its receipt. */
  lemma VerifiedOwned(s: Store, c: Context, p: Progress)
    requires Active(s, c) && Inv(s, c.plan, p) && p.steps < |c.Steps()|
    requires p.rows == |c.Steps()[p.steps].statements|
    requires ClaimsVerified(s.checkpoints, c.epoch, c.direction, c.Steps()[p.steps], p.rows)
    ensures ClaimsReceived(s.receipts, c.epoch, c.direction, c.Steps()[p.steps], p.rows)
  {
    hide Shape, Marks, Effects, Epochs, Reapplied, HasReceipt;
    IndexOfUnique(c.Steps(), p.steps);
    forall i | 0 <= i < p.rows && c.Steps()[p.steps].statements[i].claim.Some?
      ensures HasReceipt(s.receipts, StepKey(c, p.steps, i))
    {
      assert Claimed(c.plan, StepKey(c, p.steps, i));
    }
  }

  /** The checkpoints of the current step are its first `rows` statements. */
  lemma RowsInRange(s: Store, c: Context, p: Progress)
    requires Active(s, c) && Inv(s, c.plan, p) && p.steps < |c.Steps()|
    ensures RowsWithin(s.checkpoints, c, p.steps, p.rows)
  {
    IndexOfUnique(c.Steps(), p.steps);
  }

  /** The step at `k` is finished, and committed. */
  ghost predicate Finished(db: Connection, c: Context, k: nat)
    reads db
  {
    db.Clean(c.plan) && Active(db.durable, c) && db.next.steps == k + 1 && db.next.rows == 0
  }

  /** The end of a step that is not locked: postconditions, identity edges, and the final marks. */
  method CloseStep(db: Connection, c: Context, k: nat) returns (r: Signal)
    requires k < |c.Steps()| && c.Steps()[k].statements != []
    requires Safe(db, c) && Between(db, c, k, |c.Steps()[k].statements|)
    modifies db`faults, db`durable, db`working, db`sent, db`progress, db`next
    ensures Safe(db, c) && db.sent == old(db.sent)
    ensures r.Ok? ==> Finished(db, c, k)
    ensures r.Raised? ==> r.failure == OtherError
    ensures old(db.faults) == [] ==> db.faults == [] && !r.Crashed?
    ensures
      var step := c.Steps()[k];
      && (r.Ok? ==> Passes(step.after, RunStep(step, old(db.next.entry))))
      && (old(db.faults) == [] && Passes(step.after, RunStep(step, old(db.next.entry))) ==> r.Ok?)
    ensures old(db.faults) == [] && !r.Ok? ==> db.progress == old(db.progress)
    ensures r.Ok? ==> db.next.entry == RunStep(c.Steps()[k], old(db.next.entry))
  {
    hide Inv, ClaimsVerified, ClaimsReceived, EntryHolds, Passes, Recorded, HasReceipt, CutAt, Prefix;
    DataAt(db.working, c, db.next);
    :- RunGuards(db, c.Steps()[k].after);
    :- db.Probe();
    ghost var s, p := db.working, db.next;
    RowsInRange(s, c, p);
    WholeEffect(s, c.plan, p);
    VerifiedOwned(s, c, p);
    :- MarkDone(db, c, k, p.Next(s.data));
    FinishStep(s, db.working, c.plan, p);
    RecordedMarks(s, db.working, db.sent, db.freshId);
    r := db.Commit(c.plan, db.next);
  }

  /** A step without SQL: its guards, its identity edges, and one finished checkpoint. */
  method GuardOnlyStep(db: Connection, c: Context, k: nat) returns (r: Signal)
    requires k < |c.Steps()| && c.Steps()[k].statements == []
    requires Safe(db, c) && Between(db, c, k, 0)
    modifies db`faults, db`durable, db`working, db`sent, db`progress, db`next
    ensures Safe(db, c) && db.sent == old(db.sent)
    ensures r.Ok? ==> Finished(db, c, k)
    ensures db.progress == old(db.progress) || (db.progress.rows == 0 && db.progress.steps == k + 1)
    ensures r.Raised? ==> r.failure == OtherError
    ensures old(db.faults) == [] ==> db.faults == [] && !r.Crashed? && (Passes(c.Steps()[k].after, old(db.next.entry)) ==> r.Ok?)
    ensures old(db.faults) == [] && !r.Ok? ==> db.progress == old(db.progress)
    ensures r.Ok? ==> Passes(c.Steps()[k].after, old(db.next.entry))
    ensures r.Ok? ==> db.next.entry == RunStep(c.Steps()[k], old(db.next.entry))
  {
    hide Inv, Passes, ClaimsVerified, CutAt, Recorded;
    DataAt(db.working, c, db.next);
    :- RunGuards(db, c.Steps()[k].after);
    :- db.Probe();
    ghost var s, p := db.working, db.next;
    NextIsFresh(s, c.plan, p, -1);
    :- InsertCheckpoint(db, c, k, -1, Done, p.Next(s.data));
    RecordedRun(s, db.sent, db.freshId);
    RecordedIntent(s, db.sent, db.freshId, StepKey(c, k, -1), db.working.checkpoints[StepKey(c, k, -1)]);
    GuardStep(s, db.working, c.plan, p, db.working.checkpoints[StepKey(c, k, -1)]);
    r := db.Commit(c.plan, db.next);
  }

  ghost predicate OnlyThisRun(sent: seq<Key>, sent': seq<Key>, c: Context) {
    forall key :: key in sent' ==> key in sent || (key.epoch == c.epoch && key.direction == c.direction)
  }

  /** The claims of the first `n` statements are met. */
  ghost predicate MetBelow(step: Step, n: nat, d: Data)
    requires n <= |step.statements|
  {
    forall i :: 0 <= i < n ==> ClaimMet(step.statements[i], Prefix(step.statements, i, d))
  }

  lemma MetNone(step: Step, d: Data)
    ensures MetBelow(step, 0, d)
  {
  }

  /** The next statement meets its claim too, or is where the step stops. */
  lemma MetNext(step: Step, i: nat, d: Data)
    requires i < |step.statements| && MetBelow(step, i, d)
    ensures ClaimMet(step.statements[i], Prefix(step.statements, i, d)) ==> MetBelow(step, i + 1, d)
    ensures !ClaimMet(step.statements[i], Prefix(step.statements, i, d)) ==>
      && !ClaimsMet(step, d)
      && (Claimable(step.statements[i], Prefix(step.statements, i, d)) <==> exists j :: UnmetAt(step.statements, j, d))
  {
    hide Claimable, Prefix;
    if !ClaimMet(step.statements[i], Prefix(step.statements, i, d)) && Claimable(step.statements[i], Prefix(step.statements, i, d)) {
      assert UnmetAt(step.statements, i, d);
    }
  }

  lemma MetAll(step: Step, d: Data)
    requires MetBelow(step, |step.statements|, d)
    ensures ClaimsMet(step, d) && !exists j :: UnmetAt(step.statements, j, d)
  {
  }

  lemma HasProgressed(c: Context, p: Progress, k: nat)
    ensures p.steps == k && p.rows > 0 ==> Progressed(c, p)
    ensures p.steps > k && k < |c.Steps()| && c.Steps()[k].statements != [] ==> Progressed(c, p)
  {
  }

  /** What the end of a step says of its guards and claims. */
  ghost predicate StepEnds(c: Context, step: Step, d: Data, r: Signal) {
    && (r.Ok? ==> StepPasses(c.direction, step, d))
    && (r == Raised(OwnershipError) ==> StepDisowned(c.direction, step, d))
  }

  /** And where nothing fails they decide. */
  ghost predicate StepDecides(c: Context, step: Step, d: Data, r: Signal) {
    && (StepPasses(c.direction, step, d) ==> r.Ok?)
    && (StepDisowned(c.direction, step, d) ==> r == Raised(OwnershipError))
  }

  /** An error of another kind decides nothing; where a guard refuses it was due. */
  lemma OtherErrors(c: Context, step: Step, d: Data, r: Signal)
    requires !r.Ok? && r != Raised(OwnershipError)
    ensures StepEnds(c, step, d, r)
    ensures !Passes(step.before, d) || (Locked(c.direction, step) && !AllBuffered(step)) ==> StepDecides(c, step, d, r)
  {
    hide Passes, Locked, AllBuffered, ClaimsMet;
  }

  /** The statement at `i` stopped the step. */
  lemma StopsAt(c: Context, step: Step, i: nat, d: Data, r: Signal)
    requires i < |step.statements| && MetBelow(step, i, d) && !r.Ok?
    requires Passes(step.before, d) && (Locked(c.direction, step) ==> AllBuffered(step))
    requires r == Raised(OwnershipError) ==>
      Claimable(step.statements[i], Prefix(step.statements, i, d)) && !ClaimMet(step.statements[i], Prefix(step.statements, i, d))
    ensures StepEnds(c, step, d, r)
    ensures
      var st, before := step.statements[i], Prefix(step.statements, i, d);
      !ClaimMet(st, before) && (Claimable(st, before) ==> r == Raised(OwnershipError)) ==> StepDecides(c, step, d, r)
  {
    hide Claimable, ClaimMet, ClaimsMet, Prefix, Passes, Locked, AllBuffered, UnmetAt, MetBelow;
    MetNext(step, i, d);
  }

  /** All statements ran, and the after-guards were asked. */
  lemma ClosesWith(c: Context, step: Step, d: Data, r: Signal)
    requires MetBelow(step, |step.statements|, d) && r != Raised(OwnershipError)
    requires Passes(step.before, d) && (Locked(c.direction, step) ==> AllBuffered(step))
    requires r.Ok? ==> Passes(step.after, RunStep(step, d))
    ensures StepEnds(c, step, d, r)
    ensures (Passes(step.after, RunStep(step, d)) ==> r.Ok?) ==> StepDecides(c, step, d, r)
  {
    hide RunStep, Passes, Locked, AllBuffered, ClaimsMet, UnmetAt, MetBelow;
    MetAll(step, d);
  }

  /** Some statement of the direction has a checkpoint. */
  ghost predicate Progressed(c: Context, p: Progress) {
    p.rows > 0 || exists j :: 0 <= j < p.steps && j < |c.Steps()| && c.Steps()[j].statements != []
  }

  /** A step with SQL that is not locked: its statements one after the other. */
  method PlainStep(db: Connection, c: Context, k: nat, touched: bool) returns (r: Signal, possible: bool)
    requires k < |c.Steps()| && c.Steps()[k].statements != [] && !Locked(c.direction, c.Steps()[k])
    requires Safe(db, c) && Between(db, c, k, 0) && db.progress.rows == 0
    requires Passes(c.Steps()[k].before, db.next.entry)
    modifies db`faults, db`durable, db`working, db`sent, db`progress, db`next
    ensures Harmless(db, r, possible)
    ensures Safe(db, c) && OnlyThisRun(old(db.sent), db.sent, c)
    ensures r.Ok? ==> Finished(db, c, k)
    ensures !possible ==> !touched && db.sent == old(db.sent)
    ensures old(db.faults) == [] ==> db.faults == [] && !r.Crashed?
    ensures
      var step := c.Steps()[k];
      StepEnds(c, step, old(db.next.entry), r) && (old(db.faults) == [] ==> StepDecides(c, step, old(db.next.entry), r))
    ensures old(db.faults) == [] ==> possible && Progressed(c, db.progress)
    ensures r.Ok? ==> db.next.entry == RunStep(c.Steps()[k], old(db.next.entry))
    ensures forall last :: !touched && CutAt(old(db.faults), 2, last) ==>
      Cut(db, r, possible, last, FirstIntent(old(db.next), c))
  {
    hide Inv, Connection.Books, Between, CutAt, ClaimMet, Claimable, ClaimsMet, UnmetAt, MetBelow, Progressed, Passes, RunStep,
      StepEnds, StepDecides, Prefix, Locked;
    possible := touched;
    MetNone(c.Steps()[k], db.next.entry);
    for i := 0 to |c.Steps()[k].statements|
      invariant Safe(db, c) && Between(db, c, k, i)
      invariant OnlyThisRun(old(db.sent), db.sent, c)
      invariant !possible ==> !touched && db.sent == old(db.sent) && i == 0 && db.progress.rows == 0
      invariant db.next.entry == old(db.next.entry) && (old(db.faults) == [] ==> db.faults == [])
      invariant MetBelow(c.Steps()[k], i, old(db.next.entry))
      invariant old(db.faults) == [] && i > 0 ==> possible && db.progress.steps == k && db.progress.rows > 0
      invariant forall last :: !touched && CutAt(old(db.faults), 2, last) ==>
        i == 0 && !possible && db.faults == old(db.faults) && db.next == old(db.next)
    {
      MetNext(c.Steps()[k], i, old(db.next.entry));
      r, possible := PlainStatement(db, c, k, i, possible);
      HasProgressed(c, db.progress, k);
      if !r.Ok? {
        StopsAt(c, c.Steps()[k], i, old(db.next.entry), r);
        return;
      }
    }
    r := CloseStep(db, c, k);
    HasProgressed(c, db.progress, k);
    ClosesWith(c, c.Steps()[k], old(db.next.entry), r);
  }

  /** Row locks are taken for generated all-DML rollback steps; their tables must be transactional. */
  method LockQueries(db: Connection, c: Context, k: nat) returns (r: Signal, locked: bool)
    requires k < |c.Steps()|
    modifies db`faults
    ensures r.Ok? ==> locked == Locked(c.direction, c.Steps()[k])
    ensures r.Ok? && locked ==> AllBuffered(c.Steps()[k])
    ensures r.Raised? ==> r.failure == OtherError
    ensures old(db.faults) == [] ==> db.faults == [] && !r.Crashed?
    ensures
      var step := c.Steps()[k];
      old(db.faults) == [] && (Locked(c.direction, step) ==> AllBuffered(step)) ==> r.Ok?
    ensures !Locked(c.direction, c.Steps()[k]) ==> r.Ok? && db.faults == old(db.faults)
  {
    locked := Locked(c.direction, c.Steps()[k]);
    if locked {
      :- db.Probe();
      if !AllBuffered(c.Steps()[k]) {
        return Raised(OtherError), locked;
      }
    }
    r := Ok;
  }

  /** Every statement of a locked step has its checkpoint, and none has been sent. */
  ghost predicate AllIntended(db: Connection, c: Context, k: nat)
    requires k < |c.Steps()|
    reads db
  {
    && db.Clean(c.plan) && Active(db.durable, c)
    && db.next.steps == k && db.next.effects == 0 && db.next.rows == |c.Steps()[k].statements|
    && forall i :: 0 <= i < |c.Steps()[k].statements| ==> StepKey(c, k, i) !in db.sent
  }

  /** Committing the checkpoints of a locked step before any row is locked. */
  method IntendAll(db: Connection, c: Context, k: nat, ghost touched: bool) returns (r: Signal)
    requires k < |c.Steps()| && Locked(c.direction, c.Steps()[k])
    requires Safe(db, c) && Between(db, c, k, 0)
    modifies db`faults, db`durable, db`working, db`sent, db`progress, db`next
    ensures Safe(db, c) && db.sent == old(db.sent)
    ensures r.Ok? ==> AllIntended(db, c, k)
    ensures r.Raised? && !touched ==> db.progress == old(db.progress) || db.progress.unheard
    ensures db.progress.unheard && !old(db.progress.unheard) ==> r.Raised? && !touched
    ensures r.Raised? ==> r.failure == OtherError
    ensures old(db.faults) == [] ==> r.Ok? && db.faults == []
    ensures r.Ok? ==> db.next.entry == old(db.next.entry)
  {
    hide Inv, Intending, Distinct, ClaimsVerified;
    ghost var s, p := db.working, db.next;
    var n := |c.Steps()[k].statements|;
    IntendNone(s, c.plan, p, c.runId);
    forall i | 0 <= i < n ensures StepKey(c, k, i) !in s.checkpoints {
      NextIsFresh(s, c.plan, p, i);
    }
    for i := 0 to n
      invariant Safe(db, c) && db.sent == old(db.sent)
      invariant db.progress == old(db.progress) && db.freshId == old(db.freshId)
      invariant Intending(s, db.working, c.plan, p, c.runId, i) && db.working == s.(checkpoints := db.working.checkpoints)
      invariant forall key :: key in db.working.checkpoints ==> db.working.checkpoints[key].runId < db.freshId
      invariant forall key :: key in s.checkpoints ==> key in db.working.checkpoints
      invariant i > 0 ==> db.next == p.(owner := c.runId, rows := n)
      invariant old(db.faults) == [] ==> db.faults == []
    {
      ghost var t := db.working;
      :- InsertCheckpoint(db, c, k, i, Pending, p.(owner := c.runId, rows := n));
      IntendLocked(s, t, db.working, c.plan, p, c.runId, i, db.working.checkpoints[StepKey(c, k, i)]);
    }
    IntendedLocked(s, db.working, c.plan, p, c.runId);
    Unheard(db.working, c.plan, db.next);
    r := db.Commit(c.plan, Unanswered(db.next, touched));
  }

  /** `checkpoints'` differs from `checkpoints` only in marks of the step at `k`. */
  ghost predicate Remarked(checkpoints: map<Key, Checkpoint>, checkpoints': map<Key, Checkpoint>, c: Context, k: nat)
    requires k < |c.Steps()|
  {
    forall key: Key ::
      && (key in checkpoints' <==> key in checkpoints)
      && (key in checkpoints ==>
            checkpoints'[key] == if key == StepKey(c, k, key.index)
                                 then checkpoints[key].(mark := checkpoints'[key].mark) else checkpoints[key])
  }

  /** The transaction of a locked step after `n` of its statements, from the committed store `s`. */
  ghost predicate Underway(db: Connection, s: Store, c: Context, k: nat, n: nat)
    requires k < |c.Steps()| && n <= |c.Steps()[k].statements|
    reads db
  {
    && db.Valid(c.plan) && Active(db.durable, c) && db.durable == s
    && db.working == s.(checkpoints := db.working.checkpoints, data := db.working.data, receipts := db.working.receipts)
    && Remarked(s.checkpoints, db.working.checkpoints, c, k)
    && s.receipts <= db.working.receipts
    && db.progress.steps == k && db.progress.rows == |c.Steps()[k].statements|
    && db.working.data == Prefix(c.Steps()[k].statements, n, db.progress.entry)
    && ClaimsReceived(db.working.receipts, c.epoch, c.direction, c.Steps()[k], n)
    && (forall i :: 0 <= i < |c.Steps()[k].statements| ==> StepKey(c, k, i) in s.checkpoints)
    && (forall i :: n <= i < |c.Steps()[k].statements| ==> StepKey(c, k, i) !in db.sent)
  }

  lemma ClaimsExtended(receipts: seq<Receipt>, receipt: Receipt, c: Context, k: nat, i: nat)
    requires k < |c.Steps()| && i < |c.Steps()[k].statements|
    requires ClaimsReceived(receipts, c.epoch, c.direction, c.Steps()[k], i)
    requires c.Steps()[k].statements[i].claim.Some? ==>
      receipt.key == StepKey(c, k, i) && receipt.claimed == Some(receipt.affected)
    ensures ClaimsReceived(receipts + [receipt], c.epoch, c.direction, c.Steps()[k], i + 1)
  {
    forall h | 0 <= h < i + 1 && c.Steps()[k].statements[h].claim.Some?
      ensures HasReceipt(receipts + [receipt], StepKey(c, k, h))
    {
      assert (receipts + [receipt])[|receipts|] == receipt;
      assert h < i ==> HasReceipt(receipts, StepKey(c, k, h));
    }
  }

  /** One statement inside the transaction of a locked step. */
  method LockedStatement(db: Connection, ghost s: Store, c: Context, k: nat, i: nat) returns (r: Signal)
    requires k < |c.Steps()| && i < |c.Steps()[k].statements| && c.Steps()[k].statements[i].buffered
    requires Underway(db, s, c, k, i)
    modifies db`faults, db`durable, db`working, db`sent, db`progress, db`next
    ensures Safe(db, c) && OnlyThisRun(old(db.sent), db.sent, c)
    ensures r.Ok? ==> Underway(db, s, c, k, i + 1)
    ensures old(db.faults) == [] ==> db.faults == [] && !r.Crashed?
    ensures
      var step := c.Steps()[k];
      var d := Prefix(step.statements, i, old(db.progress.entry));
      && (r.Ok? ==> ClaimMet(step.statements[i], d))
      && (r == Raised(OwnershipError) ==> Claimable(step.statements[i], d) && !ClaimMet(step.statements[i], d))
      && (old(db.faults) == [] ==>
            && (ClaimMet(step.statements[i], d) ==> r.Ok?)
            && (Claimable(step.statements[i], d) && !ClaimMet(step.statements[i], d) ==> r == Raised(OwnershipError)))
    ensures db.progress == old(db.progress)
  {
    hide Inv, ClaimsReceived, HasReceipt, Remarked, Prefix;
    var statement, key := c.Steps()[k].statements[i], StepKey(c, k, i);
    var expected :- ExpectedInserts(db, statement);
    ghost var before, marked := db.working.receipts, db.working.checkpoints;
    PrefixNext(c.Steps()[k], i, db.progress.entry);
    var affected :- db.Send(statement, key, expected, db.next);
    if expected.Some? && expected != Some(affected) { return Raised(OwnershipError); }
    ClaimsExtended(before, Receipt(key, affected, expected), c, k, i);
    if expected.Some? {
      RemarkedMore(s.checkpoints, marked, c, k, i);
      :- FinishCheckpoint(db, c, k, i, WriteVerified, db.next);
    }
    r := Ok;
  }

  lemma PrefixNext(step: Step, i: nat, d: Data)
    requires i < |step.statements|
    ensures Prefix(step.statements, i + 1, d) == step.statements[i].effect(Prefix(step.statements, i, d))
  {
  }

  lemma RemarkedMore(checkpoints: map<Key, Checkpoint>, marked: map<Key, Checkpoint>, c: Context, k: nat, i: nat)
    requires k < |c.Steps()| && Remarked(checkpoints, marked, c, k) && StepKey(c, k, i) in checkpoints
    ensures StepKey(c, k, i) in marked
    ensures Remarked(checkpoints, marked[StepKey(c, k, i) := marked[StepKey(c, k, i)].(mark := WriteVerified)], c, k)
  {
  }

  lemma RemarkedWithin(s: Store, remarked: map<Key, Checkpoint>, c: Context, p: Progress)
    requires Active(s, c) && Inv(s, c.plan, p) && p.steps < |c.Steps()|
    requires Remarked(s.checkpoints, remarked, c, p.steps)
    ensures RowsWithin(remarked, c, p.steps, p.rows)
  {
    hide Inv;
    RowsInRange(s, c, p);
  }

  /** Committing the transaction of a locked step finishes it. */
  lemma LockedFinish(s: Store, t: Store, u: Store, c: Context, p: Progress)
    requires Active(s, c) && Inv(s, c.plan, p) && p.steps < |c.Steps()|
    requires p.rows == |c.Steps()[p.steps].statements| > 0
    requires t == s.(checkpoints := t.checkpoints, data := t.data, receipts := t.receipts)
    requires Remarked(s.checkpoints, t.checkpoints, c, p.steps) && s.receipts <= t.receipts
    requires t.data == RunStep(c.Steps()[p.steps], p.entry)
    requires ClaimsReceived(t.receipts, c.epoch, c.direction, c.Steps()[p.steps], p.rows)
    requires u == t.(checkpoints := u.checkpoints)
    requires AllDone(t.checkpoints, u.checkpoints, c.epoch, c.direction, c.Steps()[p.steps].id)
    ensures Inv(u, c.plan, p.Next(u.data))
  {
    hide Inv;
    RemarkedDone(s.checkpoints, t.checkpoints, u.checkpoints, c, p.steps);
    LockedEffect(s, t.data, c.plan, p);
    FinishStep(s, u, c.plan, p);
  }

  /** The end of a locked step: postconditions and final marks join its transaction. */
  method CloseLocked(db: Connection, ghost s: Store, c: Context, k: nat) returns (r: Signal)
    requires k < |c.Steps()| && c.Steps()[k].statements != []
    requires Underway(db, s, c, k, |c.Steps()[k].statements|)
    modifies db`faults, db`durable, db`working, db`sent, db`progress, db`next
    ensures Safe(db, c) && db.sent == old(db.sent)
    ensures r.Ok? ==> Finished(db, c, k)
    ensures r.Raised? ==> r.failure == OtherError
    ensures old(db.faults) == [] ==> db.faults == [] && !r.Crashed?
    ensures
      var step := c.Steps()[k];
      && (r.Ok? ==> Passes(step.after, RunStep(step, old(db.progress.entry))))
      && (old(db.faults) == [] && Passes(step.after, RunStep(step, old(db.progress.entry))) ==> r.Ok?)
    ensures old(db.faults) == [] && !r.Ok? ==> db.progress == old(db.progress)
    ensures r.Ok? ==> db.next.entry == RunStep(c.Steps()[k], old(db.progress.entry))
  {
    hide Inv;
    :- RunGuards(db, c.Steps()[k].after);
    :- db.Probe();
    ghost var t, p := db.working, db.progress;
    RemarkedWithin(s, t.checkpoints, c, p);
    :- MarkDone(db, c, k, p.Next(t.data));
    LockedFinish(s, t, db.working, c, p);
    r := CommitFinished(db, s, t, c, k);
  }

  method CommitFinished(db: Connection, ghost s: Store, ghost t: Store, c: Context, k: nat) returns (r: Signal)
    requires k < |c.Steps()|
    requires Safe(db, c) && db.durable == s
    requires Inv(db.working, c.plan, db.next) && db.next.closed == db.closed
    requires db.next.steps == k + 1 && db.next.rows == 0
    requires t.runs == s.runs && Remarked(s.checkpoints, t.checkpoints, c, k)
    requires db.working == t.(checkpoints := db.working.checkpoints)
    requires AllDone(t.checkpoints, db.working.checkpoints, c.epoch, c.direction, c.Steps()[k].id)
    modifies db`faults, db`durable, db`working, db`sent, db`progress, db`next
    ensures Safe(db, c) && db.sent == old(db.sent)
    ensures r.Ok? ==> Finished(db, c, k)
    ensures r.Raised? ==> r.failure == OtherError
    ensures old(db.faults) == [] ==> r.Ok? && db.faults == []
    ensures r.Ok? ==> db.next == old(db.next)
  {
    hide Inv;
    r := db.Commit(c.plan, db.next);
  }

  lemma RemarkedDone(checkpoints: map<Key, Checkpoint>, remarked: map<Key, Checkpoint>, done: map<Key, Checkpoint>,
                     c: Context, k: nat)
    requires k < |c.Steps()|
    requires Remarked(checkpoints, remarked, c, k)
    requires AllDone(remarked, done, c.epoch, c.direction, c.Steps()[k].id)
    ensures AllDone(checkpoints, done, c.epoch, c.direction, c.Steps()[k].id)
  {
    forall key: Key ensures
      && (key in done <==> key in checkpoints)
      && (key in checkpoints ==>
            done[key] == if key.epoch == c.epoch && key.direction == c.direction && key.op == c.Steps()[k].id
                         then checkpoints[key].(mark := Done) else checkpoints[key])
    {
      assert key in remarked <==> key in checkpoints;
    }
  }

  lemma LockedEffect(s: Store, data: Data, plan: Plan, p: Progress)
    requires InStep(s, plan, p) && data == RunStep(StepAt(s, plan, p), p.entry)
    ensures EntryHolds(plan, Last(s), p.steps + 1, data, p.closed)
  {
  }

  lemma IntendedRows(s: Store, c: Context, p: Progress)
    requires Active(s, c) && Inv(s, c.plan, p) && p.steps < |c.Steps()|
    requires p.rows == |c.Steps()[p.steps].statements| && p.effects == 0
    ensures forall i :: 0 <= i < p.rows ==> StepKey(c, p.steps, i) in s.checkpoints
    ensures s.data == Prefix(c.Steps()[p.steps].statements, 0, p.entry)
    ensures Remarked(s.checkpoints, s.checkpoints, c, p.steps)
    ensures ClaimsReceived(s.receipts, c.epoch, c.direction, c.Steps()[p.steps], 0)
  {
    forall i | 0 <= i < p.rows ensures StepKey(c, p.steps, i) in s.checkpoints {
      CurrentRow(s, c, p, i);
    }
  }

  /** A locked step: all intents, then locks, proofs, guards, writes and marks in one transaction. */
  method LockedStep(db: Connection, c: Context, k: nat, touched: bool) returns (r: Signal, possible: bool)
    requires k < |c.Steps()| && Locked(c.direction, c.Steps()[k])
    requires AllBuffered(c.Steps()[k])
    requires Safe(db, c) && Between(db, c, k, 0) && db.progress.rows == 0
    modifies db`faults, db`durable, db`working, db`sent, db`progress, db`next
    ensures Harmless(db, r, possible)
    ensures Safe(db, c) && OnlyThisRun(old(db.sent), db.sent, c)
    ensures r.Ok? ==> Finished(db, c, k)
    ensures !possible ==> !touched && db.sent == old(db.sent)
    ensures old(db.faults) == [] ==> db.faults == [] && !r.Crashed?
    ensures
      var step := c.Steps()[k];
      StepEnds(c, step, old(db.next.entry), r) && (old(db.faults) == [] ==> StepDecides(c, step, old(db.next.entry), r))
    ensures old(db.faults) == [] ==> possible && Progressed(c, db.progress)
    ensures r.Ok? ==> db.next.entry == RunStep(c.Steps()[k], old(db.next.entry))
  {
    hide Inv, ClaimsReceived, Passes, Distinct, HasReceipt, Remarked, Connection.Books, ClaimsVerified, RunStep, ClaimMet, Claimable,
      ClaimsMet, UnmetAt, MetBelow, Progressed, StepEnds, StepDecides, Prefix;
    possible := touched;
    ghost var step, entry := c.Steps()[k], db.next.entry;
    MetNone(step, entry);
    r := IntendAll(db, c, k, touched);
    if !r.Ok? {
      OtherErrors(c, step, entry, r);
      return;
    }
    possible := true;
    HasProgressed(c, db.progress, k);
    IntendedRows(db.working, c, db.next);
    DataAt(db.working, c, db.next);
    PrefixNone(step, entry);
    ghost var s := db.working;
    r := LockAndGuard(db, c, k);
    if !r.Ok? {
      OtherErrors(c, step, entry, r);
      return;
    }
    for i := 0 to |c.Steps()[k].statements|
      invariant Safe(db, c) && OnlyThisRun(old(db.sent), db.sent, c)
      invariant Underway(db, s, c, k, i) && MetBelow(step, i, entry)
      invariant db.progress.entry == entry && (old(db.faults) == [] ==> db.faults == [])
    {
      MetNext(step, i, entry);
      r := LockedStatement(db, s, c, k, i);
      HasProgressed(c, db.progress, k);
      if !r.Ok? {
        StopsAt(c, step, i, entry, r);
        return;
      }
    }
    r := CloseLocked(db, s, c, k);
    HasProgressed(c, db.progress, k);
    ClosesWith(c, step, entry, r);
  }

  lemma PrefixNone(step: Step, d: Data)
    ensures Prefix(step.statements, 0, d) == d
  {
  }

  /** Locking the rows, verifying the edges, and the guards before the step. */
  method LockAndGuard(db: Connection, c: Context, k: nat) returns (r: Signal)
    requires k < |c.Steps()|
    modifies db`faults
    ensures r.Raised? ==> r.failure == OtherError
    ensures r.Ok? ==> Passes(c.Steps()[k].before, db.working.data)
    ensures old(db.faults) == [] ==> db.faults == [] && !r.Crashed? && (Passes(c.Steps()[k].before, db.working.data) ==> r.Ok?)
  {
    hide Passes;
    :- db.Probe();
    :- db.Probe();
    r := RunGuards(db, c.Steps()[k].before);
  }

  // ---------- one step ----------

  /** The checkpoints of one step. */
  function RowsOf(s: Store, c: Context, k: nat): map<Key, Checkpoint>
    requires k < |c.Steps()|
  {
    map key | key in s.checkpoints && key == StepKey(c, k, key.index) :: s.checkpoints[key]
  }

  predicate Mismatched(step: Step, direction: Direction, rows: map<Key, Checkpoint>) {
    exists key :: key in rows && DigestOf(step, direction, key.index) != Some(rows[key].digest)
  }

  /** A step is finished when every statement has its checkpoint and all are done. */
  predicate Complete(step: Step, rows: map<Key, Checkpoint>) {
    && (set key | key in rows :: key.index) == ExpectedIndexes(step)
    && forall key :: key in rows ==> rows[key].mark == Done
  }

  function ExpectedIndexes(step: Step): set<int> {
    set i | -1 <= i < |step.statements| && Expected(step, i)
  }

  datatype Validation = DoesNotMatch | Unresolved | AllComplete

  /** Every stored checkpoint must match the reviewed plan. */
  method ValidateStepCheckpoints(step: Step, direction: Direction, rows: map<Key, Checkpoint>) returns (v: Validation)
    requires forall key, other :: key in rows && other in rows && key.index == other.index ==> key == other
    ensures v.DoesNotMatch? <==> Mismatched(step, direction, rows)
    ensures v.AllComplete? <==> !Mismatched(step, direction, rows) && Complete(step, rows)
  {
    var expected, indexes, todo := ExpectedIndexes(step), {}, rows.Keys;
    while todo != {}
      invariant todo <= rows.Keys
      invariant indexes == set key | key in rows.Keys - todo :: key.index
      invariant forall key :: key in rows.Keys - todo ==> DigestOf(step, direction, key.index) == Some(rows[key].digest)
    {
      var key :| key in todo;
      if key.index in indexes || key.index !in expected || DigestOf(step, direction, key.index) != Some(rows[key].digest) {
        assert key.index !in expected ==> DigestOf(step, direction, key.index).None?;
        return DoesNotMatch;
      }
      indexes, todo := indexes + {key.index}, todo - {key};
    }
    assert rows.Keys - todo == rows.Keys;
    if indexes == expected && forall key :: key in rows ==> rows[key].mark == Done {
      return AllComplete;
    }
    v := Unresolved;
  }

  lemma PastRow(s: Store, c: Context, p: Progress, k: nat, i: int)
    requires Active(s, c) && Inv(s, c.plan, p) && k < p.steps <= |c.Steps()|
    ensures StepKey(c, k, i) in s.checkpoints <==> Expected(c.Steps()[k], i)
    ensures StepKey(c, k, i) in s.checkpoints ==>
      && s.checkpoints[StepKey(c, k, i)].mark == Done
      && DigestOf(c.Steps()[k], c.direction, i) == Some(s.checkpoints[StepKey(c, k, i)].digest)
  {
    IndexOfUnique(c.Steps(), k);
  }

  /** The steps before the current one are recognised as finished. */
  lemma FinishedIsComplete(s: Store, c: Context, p: Progress, k: nat)
    requires Active(s, c) && Inv(s, c.plan, p) && k < p.steps <= |c.Steps()|
    ensures Complete(c.Steps()[k], RowsOf(s, c, k)) && !Mismatched(c.Steps()[k], c.direction, RowsOf(s, c, k))
  {
    hide Inv, Active;
    var rows := RowsOf(s, c, k);
    forall i | i in ExpectedIndexes(c.Steps()[k]) ensures i in set key | key in rows :: key.index {
      PastRow(s, c, p, k, i);
      assert StepKey(c, k, i) in rows;
    }
    forall key | key in rows
      ensures key.index in ExpectedIndexes(c.Steps()[k]) && rows[key].mark == Done
      ensures DigestOf(c.Steps()[k], c.direction, key.index) == Some(rows[key].digest)
    {
      PastRow(s, c, p, k, key.index);
    }
  }

  /** The current step is not: it has no checkpoint at all, or an unfinished one. */
  lemma CurrentIsIncomplete(s: Store, c: Context, p: Progress)
    requires Active(s, c) && Inv(s, c.plan, p) && p.steps < |c.Steps()|
    ensures !Complete(c.Steps()[p.steps], RowsOf(s, c, p.steps))
    ensures RowsOf(s, c, p.steps) == map[] <==> p.rows == 0
  {
    var k, rows := p.steps, RowsOf(s, c, p.steps);
    RowsInRange(s, c, p);
    if p.rows > 0 {
      CurrentRow(s, c, p, 0);
      assert StepKey(c, k, 0) in rows && rows[StepKey(c, k, 0)].mark != Done by {
        assert s.checkpoints[StepKey(c, k, 0)].mark != Done;
      }
    } else {
      forall key ensures key !in rows {
      }
      var first := if c.Steps()[k].statements == [] then -1 else 0;
      assert Expected(c.Steps()[k], first) && first in ExpectedIndexes(c.Steps()[k]);
    }
  }

  /** Recording which operation is about to start. */
  method SetLastOperation(db: Connection, c: Context) returns (r: Signal)
    requires Safe(db, c) && db.Clean(c.plan)
    modifies db`faults, db`durable, db`working, db`sent, db`progress, db`next
    ensures Safe(db, c) && db.sent == old(db.sent) && db.progress == old(db.progress)
    ensures r.Ok? ==> db.Clean(c.plan) && db.working.data == old(db.working.data)
    ensures r.Raised? ==> r.failure == OtherError
    ensures old(db.faults) == [] ==> r.Ok? && db.faults == []
    ensures forall n: nat, last :: n >= 2 && CutAt(old(db.faults), n, last) ==> r.Ok? && CutAt(db.faults, n - 2, last)
  {
    hide Inv;
    var s := db.working;
    var t := s.(events := s.events + [Event(OperationStarted, c.epoch)]);
    EventLogged(s, t, c.plan, db.next);
    r := db.Save(c.plan, t, db.next);
  }

  /** A step that starts with an unguarded statement. */
  predicate Unguarded(direction: Direction, step: Step) {
    step.before == [] && step.statements != [] && !Locked(direction, step)
  }

  /** The effects of a step that has no checkpoint yet. */
  method FreshStep(db: Connection, c: Context, k: nat, touched: bool) returns (r: Signal, possible: bool)
    requires k < |c.Steps()|
    requires Safe(db, c) && db.Clean(c.plan) && db.next.steps == k && db.next.rows == db.next.effects == 0
    modifies db`faults, db`durable, db`working, db`sent, db`progress, db`next
    ensures Safe(db, c) && OnlyThisRun(old(db.sent), db.sent, c)
    ensures r.Ok? ==> Finished(db, c, k)
    ensures !possible ==> !touched && db.sent == old(db.sent)
    ensures Harmless(db, r, possible)
    ensures old(db.faults) == [] ==> db.faults == [] && !r.Crashed?
    ensures
      var step := c.Steps()[k];
      StepEnds(c, step, old(db.next.entry), r) && (old(db.faults) == [] ==> StepDecides(c, step, old(db.next.entry), r))
    ensures old(db.faults) == [] && (Progressed(c, old(db.next)) ==> touched) ==> (possible <==> touched || Progressed(c, db.progress))
    ensures old(db.faults) == [] && Progressed(c, old(db.next)) ==> Progressed(c, db.progress)
    ensures r.Ok? ==> db.next.entry == RunStep(c.Steps()[k], old(db.next.entry))
    ensures forall last :: !touched && Unguarded(c.direction, c.Steps()[k]) && CutAt(old(db.faults), 6, last) ==>
      Cut(db, r, possible, last, FirstIntent(old(db.next), c))
  {
    hide Inv, Passes, ClaimsMet, AllBuffered, Locked, RunStep, StepPasses, Distinct, CutAt, Progressed, StepEnds, StepDecides, Prefix;
    possible := touched;
    ghost var step, entry := c.Steps()[k], db.next.entry;
    DataAt(db.working, c, db.next);
    PrefixNone(step, entry);
    r := SetLastOperation(db, c);
    if r.Ok? {
      r := db.Probe();
    }
    if !r.Ok? {
      OtherErrors(c, step, entry, r);
      return;
    }
    var locked;
    r, locked := LockQueries(db, c, k);
    if !r.Ok? {
      OtherErrors(c, step, entry, r);
      return;
    }
    if locked {
      r, possible := LockedStep(db, c, k, touched);
      return;
    }
    r := RunGuards(db, c.Steps()[k].before);
    if !r.Ok? {
      OtherErrors(c, step, entry, r);
      return;
    }
    r := db.Commit(c.plan, db.next);
    if !r.Ok? {
      OtherErrors(c, step, entry, r);
      return;
    }
    if c.Steps()[k].statements == [] {
      NothingToRun(step, entry);
      r := GuardOnlyStep(db, c, k);
      StillProgressed(c, old(db.next), db.progress, k);
      ClosesWith(c, step, entry, r);
    } else {
      r, possible := PlainStep(db, c, k, touched);
    }
  }

  lemma NothingToRun(step: Step, d: Data)
    requires step.statements == []
    ensures MetBelow(step, 0, d) && RunStep(step, d) == d
  {
  }

  /** A step without SQL adds no statement. */
  lemma StillProgressed(c: Context, p: Progress, q: Progress, k: nat)
    requires k < |c.Steps()| && c.Steps()[k].statements == [] && p.steps == k && p.rows == 0
    requires q.rows == 0 && (q.steps == k || q.steps == k + 1)
    ensures Progressed(c, q) <==> Progressed(c, p)
  {
  }

  /** One step: skipped when finished before, refused when left in doubt, otherwise run. */
  method AdvanceStep(db: Connection, c: Context, k: nat, touched: bool) returns (r: Signal, possible: bool)
    requires k < |c.Steps()|
    requires Safe(db, c) && db.Clean(c.plan) && k <= db.next.steps
    requires !touched ==> db.next.rows == 0
    modifies db`faults, db`durable, db`working, db`sent, db`progress, db`next
    ensures Safe(db, c) && OnlyThisRun(old(db.sent), db.sent, c)
    ensures r.Ok? ==> db.Clean(c.plan) && k < db.next.steps
    ensures r.Ok? && !possible ==> db.next.rows == 0
    ensures !possible ==> !touched && db.sent == old(db.sent)
    ensures Harmless(db, r, possible)
    ensures old(db.faults) == [] ==> db.faults == [] && !r.Crashed? && (k < old(db.next.steps) ==> r.Ok?)
    ensures k < old(db.next.steps) || old(db.next.rows) > 0 ==> r != Raised(OwnershipError)
    ensures k == old(db.next.steps) && old(db.next.rows) == 0 ==>
      var step, entry := c.Steps()[k], old(db.next.entry);
      StepEnds(c, step, entry, r) && (old(db.faults) == [] ==> StepDecides(c, step, entry, r))
    ensures old(db.faults) == [] && (Progressed(c, old(db.next)) ==> touched) ==> (possible <==> touched || Progressed(c, db.progress))
    ensures old(db.faults) == [] && Progressed(c, old(db.next)) ==> Progressed(c, db.progress)
    ensures r.Ok? && k < old(db.next.steps) ==> db.next == old(db.next)
    ensures r.Ok? && k == old(db.next.steps) ==>
      db.next.steps == k + 1 && db.next.rows == 0 && db.next.entry == RunStep(c.Steps()[k], old(db.next.entry))
    ensures old(db.next.rows) > 0 ==>
      && db.progress == old(db.progress) && db.durable == old(db.durable)
      && (if k == old(db.next.steps) then !r.Ok? && (old(db.faults) == [] ==> r == Raised(OtherError)) else r.Ok? ==> db.next == old(db.next))
      && possible == touched
    ensures
      var plain := k == old(db.next.steps) && old(db.next.rows) == 0 && Unguarded(c.direction, c.Steps()[k]);
      forall last :: !touched && plain && CutAt(old(db.faults), 8, last) ==>
        Cut(db, r, possible, last, FirstIntent(old(db.next), c))
  {
    hide Inv, CutAt, Unguarded, StepPasses, StepEnds, StepDecides, Progressed;
    possible := touched;
    ghost var step, entry := c.Steps()[k], db.next.entry;
    r := db.Probe();
    if !r.Ok? {
      OtherErrors(c, step, entry, r);
      return;
    }
    var rows := RowsOf(db.working, c, k);
    r := db.Commit(c.plan, db.next);
    if !r.Ok? {
      OtherErrors(c, step, entry, r);
      return;
    }
    Standing(db.working, c, db.next, k);
    var validation := ValidateStepCheckpoints(c.Steps()[k], c.direction, rows);
    if validation.DoesNotMatch? { return Raised(OtherError), possible; }
    if validation.AllComplete? { return Ok, possible; }
    if rows != map[] { return Raised(OtherError), possible; }
    r, possible := FreshStep(db, c, k, touched);
  }

  /** What the checkpoints of the step at `k` say when every earlier step is finished. */
  lemma Standing(s: Store, c: Context, p: Progress, k: nat)
    requires Active(s, c) && Inv(s, c.plan, p) && k < |c.Steps()| && k <= p.steps
    ensures p.steps <= |c.Steps()|
    ensures var step, rows := c.Steps()[k], RowsOf(s, c, k);
      if k < p.steps then !Mismatched(step, c.direction, rows) && Complete(step, rows)
      else !Complete(step, rows) && (rows == map[] <==> p.rows == 0) && (p.rows == 0 ==> p.effects == 0)
  {
    if k < p.steps {
      FinishedIsComplete(s, c, p, k);
    } else {
      CurrentIsIncomplete(s, c, p);
    }
  }
}
