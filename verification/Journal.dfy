/**
 * The durable record of one migration on a backend without transactional DDL: the run journal
 * (one row for each epoch), the operation checkpoints, the event trail, and the user tables.
 */
module Journal {
  import opened Options
  import opened Plans

  datatype Status =
    | Applying | AppliedSuccess | FailedRetryable | UnknownRequiresReconciliation
    | RolledBack | Abandoned | FailedFinal

  /** The leading words of the error column, which retries read as evidence. */
  datatype Evidence = NoError | NoSideEffects | PossibleSideEffects | ReconciledVerified

  datatype Run = Run(
    epoch: nat,
    checksum: string,
    status: Status,
    runId: nat,
    direction: Direction,
    error: Evidence,
    baseline: bool,
    origin: Data)  // auxiliary: the user tables when the epoch opened; nothing reads it

  /** The primary key of the checkpoint table. */
  datatype Key = Key(epoch: nat, direction: Direction, op: string, index: int)

  datatype Mark = Pending | WriteVerified | Done

  /** The statement checksum: an injective function of what it covers. */
  datatype Digest = Digest(direction: Direction, op: string, index: int, text: string)

  datatype Checkpoint = Checkpoint(runId: nat, digest: Digest, mark: Mark)

  datatype EventKind = RunStarted | RunResumed | OperationStarted | RunStatus | Baseline | Reapply(previous: nat)

  datatype Event = Event(kind: EventKind, epoch: nat)

  /** Auxiliary: a statement whose effect is in the user tables, with its reported and claimed rows. */
  datatype Receipt = Receipt(key: Key, affected: int, claimed: Option<int>)

  datatype Store = Store(
    runs: seq<Run>,
    checkpoints: map<Key, Checkpoint>,
    events: seq<Event>,
    data: Data,
    receipts: seq<Receipt>)  // auxiliary: grows with `data`, in the same transactions

  /** The user tables the journal began with. */
  ghost function Start(s: Store): Data {
    if s.runs == [] then s.data else s.runs[0].origin
  }

  /** The row with the greatest epoch. */
  function LatestRun(runs: seq<Run>): Option<Run> {
    if runs == [] then None
    else
      var last := runs[|runs| - 1];
      match LatestRun(runs[..|runs| - 1])
      case None => Some(last)
      case Some(best) => Some(if best.epoch > last.epoch then best else last)
  }

  function UpdateRun(runs: seq<Run>, epoch: nat, change: Run -> Run): (r: seq<Run>)
    ensures |r| == |runs|
    ensures forall i :: 0 <= i < |runs| ==> r[i] == if runs[i].epoch == epoch then change(runs[i]) else runs[i]
  {
    if runs == [] then []
    else [if runs[0].epoch == epoch then change(runs[0]) else runs[0]] + UpdateRun(runs[1..], epoch, change)
  }

  predicate Terminal(status: Status) {
    status == Abandoned || status == FailedFinal
  }

  /** What a retry may rely on: nothing started, or every effect was verified afterwards. */
  predicate HasProof(run: Run) {
    run.error == NoSideEffects || run.error == ReconciledVerified
  }

  predicate Resumable(run: Run, direction: Direction) {
    run.status == FailedRetryable && run.direction == direction && HasProof(run)
  }

  datatype Admission = AlreadyApplied | Refused | Resume(epoch: nat) | Open(epoch: nat)

  /** Whether a run may start, and in which epoch. */
  function Admit(existing: Option<Run>, checksum: string, direction: Direction, reapply: bool): Admission {
    match existing
    case None => if direction == Rollback then Refused else Open(1)
    case Some(run) =>
      if run.checksum != checksum then Refused
      else if direction == Upgrade && run.status == AppliedSuccess then AlreadyApplied
      else if direction == Upgrade && run.status == RolledBack && !reapply then Refused
      else if Terminal(run.status) then Refused
      else if direction == Rollback then
        if run.baseline || (run.status != AppliedSuccess && !Resumable(run, direction)) then Refused
        else Resume(run.epoch)
      else if Resumable(run, direction) then Resume(run.epoch)
      else if run.status in {Applying, UnknownRequiresReconciliation, FailedRetryable} then Refused
      else Open(run.epoch + 1)
  }

  /** A journal row that nothing may change any more. */
  predicate Frozen(run: Run) {
    run.status == RolledBack || Terminal(run.status) || (run.status == AppliedSuccess && run.baseline)
  }

  /** How the journal may change: rows are added, frozen rows stay, success is left only by a rollback. */
  ghost predicate Evolves(runs: seq<Run>, runs': seq<Run>) {
    && |runs| <= |runs'|
    && forall i :: 0 <= i < |runs| ==> RunEvolves(runs[i], runs'[i])
  }

  ghost predicate RunEvolves(run: Run, run': Run) {
    && run'.epoch == run.epoch && run'.checksum == run.checksum && run'.origin == run.origin
    && (Frozen(run) ==> run' == run)
    && (run.status == AppliedSuccess ==> run' == run || run'.direction == Rollback)
    && (run.direction == Rollback ==> run'.direction == Rollback)
  }

  // ---------- the invariant ----------

  /**
   * Where the latest epoch's current direction stands: `steps` finished steps, `rows` checkpoints of
   * the next one, `effects` of its statements in the user tables, which held `entry` when it began;
   * its checkpoints belong to run `owner`. `unheard` when the reply of the commit that wrote the first of
   * them was lost to a run that had found none. `closed` are the steps that a verified reconciliation
   * declared finished, over all epochs.
   */
  datatype Progress = Progress(steps: nat, rows: nat, effects: nat, entry: Data, owner: nat, unheard: bool,
                               closed: set<Reviewed>)
  {
    /** The step in progress is finished, and left these user tables. */
    function Next(data: Data): Progress {
      this.(steps := steps + 1, rows := 0, effects := 0, entry := data, unheard := false)
    }

    /** A direction begins. */
    function Begin(data: Data, runId: nat): Progress {
      Progress(0, 0, 0, data, runId, false, closed)
    }
  }

  datatype Reviewed = Reviewed(epoch: nat, direction: Direction, step: nat)

  /** The after-guards of a reviewed step could tell whether its last effect was there. */
  ghost predicate Sure(plan: Plan, r: Reviewed, origin: Data) {
    var steps := plan.Steps(r.direction);
    r.step < |steps| ==>
      Discriminates(r.direction, steps[r.step], RunSteps(steps, r.step, Base(plan, r.direction, origin)))
  }

  /** And so for every step that reconciliation declared finished in the epoch of this run. */
  ghost predicate Trusted(plan: Plan, run: Run, closed: set<Reviewed>) {
    forall r :: r in closed && r.epoch == run.epoch ==> Sure(plan, r, run.origin)
  }

  /** How many finished steps, and checkpoints of the next, each epoch and direction has. */
  ghost function Position(plan: Plan, epochs: nat, current: Direction, steps: nat, rows: nat,
                          epoch: nat, direction: Direction): (nat, nat) {
    if epoch < 1 || epoch > epochs then (0, 0)
    else if epoch < epochs then (|plan.Steps(direction)|, 0)
    else if direction == current then (steps, rows)
    else if direction == Upgrade then (|plan.upgrade|, 0)
    else (0, 0)
  }

  ghost predicate Reached(steps: seq<Step>, op: string, index: int, position: (nat, nat)) {
    var i := IndexOf(steps, op);
    i >= 0 && ((i < position.0 && Expected(steps[i], index)) || (i == position.0 && 0 <= index < position.1))
  }

  /** The checkpoints are exactly those the position calls for. */
  ghost predicate Shape(checkpoints: map<Key, Checkpoint>, plan: Plan, epochs: nat, current: Direction,
                        steps: nat, rows: nat) {
    forall key :: key in checkpoints <==>
      Reached(plan.Steps(key.direction), key.op, key.index,
              Position(plan, epochs, current, steps, rows, key.epoch, key.direction))
  }

  ghost predicate CurrentStep(plan: Plan, epochs: nat, current: Direction, steps: nat, key: Key) {
    key.epoch == epochs && key.direction == current && IndexOf(plan.Steps(current), key.op) == steps
  }

  function DigestOf(step: Step, direction: Direction, index: int): Option<Digest> {
    if index == -1 && step.statements == [] then Some(Digest(direction, step.id, index, "<guard-only-step>"))
    else if 0 <= index < |step.statements| then
      Some(Digest(direction, step.id, index, step.statements[index].text))
    else None
  }

  ghost predicate Digested(plan: Plan, key: Key, digest: Digest) {
    var steps := plan.Steps(key.direction);
    var i := IndexOf(steps, key.op);
    i >= 0 && DigestOf(steps[i], key.direction, key.index) == Some(digest)
  }

  /** Every checkpoint names its statement, and only the current step's may be unfinished. */
  ghost predicate Marks(checkpoints: map<Key, Checkpoint>, plan: Plan, epochs: nat, current: Direction, steps: nat) {
    forall key :: key in checkpoints ==>
      && Digested(plan, key, checkpoints[key].digest)
      && (CurrentStep(plan, epochs, current, steps, key) || checkpoints[key].mark == Done)
  }

  /** The step in progress: checkpoints first, then effects, at most one statement behind. */
  ghost predicate Unfinished(checkpoints: map<Key, Checkpoint>, epoch: nat, direction: Direction, step: Step, p: Progress) {
    && p.rows <= |step.statements|
    && (forall i :: 0 <= i < p.rows ==>
          var key := Key(epoch, direction, step.id, i);
          && key in checkpoints
          && checkpoints[key].mark != Done
          && checkpoints[key].runId == p.owner)
    && if Locked(direction, step) && p.rows > 0 then
         && p.rows == |step.statements|
         && p.effects == 0
         && forall i :: 0 <= i < p.rows ==> checkpoints[Key(epoch, direction, step.id, i)].mark == Pending
       else
         && p.effects <= p.rows <= p.effects + 1
         && forall i :: 0 <= i < p.rows ==>
              var mark := checkpoints[Key(epoch, direction, step.id, i)].mark;
              && (mark == WriteVerified ==> i < p.effects)
              && (step.statements[i].claim.Some? && i < p.rows - 1 ==> mark == WriteVerified)
  }

  /** The user tables are the entry state followed by the effects so far of the step in progress. */
  ghost predicate Effects(checkpoints: map<Key, Checkpoint>, run: Run, data: Data, plan: Plan, p: Progress) {
    var steps := plan.Steps(run.direction);
    && p.steps <= |steps|
    && (p.steps == |steps| ==> p.rows == p.effects == 0 && data == p.entry)
    && (p.steps < |steps| ==>
          && Unfinished(checkpoints, run.epoch, run.direction, steps[p.steps], p)
          && data == Prefix(steps[p.steps].statements, p.effects, p.entry))
    && EntryHolds(plan, run, p.steps, p.entry, p.closed)
  }

  /** The current step began where running the steps before it leads, if the guards can be trusted. */
  ghost predicate EntryHolds(plan: Plan, run: Run, steps: nat, entry: Data, closed: set<Reviewed>) {
    && steps <= |plan.Steps(run.direction)|
    && (Trusted(plan, run, closed) ==>
          entry == RunSteps(plan.Steps(run.direction), steps, Base(plan, run.direction, run.origin)))
  }

  /** What each status of the latest run promises. A settled run leaves a checkpoint open only if it is unheard of. */
  ghost predicate StatusHolds(run: Run, plan: Plan, p: Progress) {
    && (p.unheard ==> p.rows > 0)
    && (p.rows > 0 && !p.unheard ==> p.owner == run.runId)
    && match run.status
       case AppliedSuccess =>
         (p.rows > 0 ==> p.unheard) && (!run.baseline ==> run.direction == Upgrade && p.steps == |plan.upgrade|)
       case RolledBack => !run.baseline && run.direction == Rollback && p.steps == |plan.rollback|
       case FailedRetryable => HasProof(run) && (p.rows > 0 ==> p.unheard)
       case _ => true
  }

  /** Epochs are 1, 2, ... and each one but the last was rolled back before the next was opened. */
  ghost predicate Epochs(runs: seq<Run>, plan: Plan, closed: set<Reviewed>) {
    && (forall i :: 0 <= i < |runs| ==> runs[i].epoch == i + 1 && runs[i].checksum == plan.checksum)
    && (forall i :: 0 <= i < |runs| - 1 ==> LeftBehind(plan, runs[i], runs[i + 1], closed))
  }

  ghost predicate LeftBehind(plan: Plan, run: Run, next: Run, closed: set<Reviewed>) {
    && run.status == RolledBack
    && run.direction == Rollback
    && (Trusted(plan, run, closed) ==>
          next.origin == RunAll(plan.rollback, RunAll(plan.upgrade, run.origin)))
  }

  /** Some explicit reapply is on record for every epoch after the first. */
  ghost predicate Reapplied(epochs: nat, events: seq<Event>) {
    forall e :: 1 < e <= epochs ==> ReapplyLogged(events, e)
  }

  ghost predicate ReapplyLogged(events: seq<Event>, epoch: nat) {
    epoch > 0 && Event(Reapply(epoch - 1), epoch) in events
  }

  ghost predicate Runnable(plan: Plan, direction: Direction) {
    UniqueIds(plan.upgrade) && (direction == Rollback ==> UniqueIds(plan.rollback))
  }

  ghost predicate Claimed(plan: Plan, key: Key) {
    var steps := plan.Steps(key.direction);
    var i := IndexOf(steps, key.op);
    i >= 0 && 0 <= key.index < |steps[i].statements| && steps[i].statements[key.index].claim.Some?
  }

  ghost predicate HasReceipt(receipts: seq<Receipt>, key: Key) {
    exists r :: r in receipts && r.key == key && r.claimed == Some(r.affected)
  }

  /** A verified or finished checkpoint of a claimed insert: the insert is in, with the claimed count. */
  ghost predicate Owned(checkpoints: map<Key, Checkpoint>, receipts: seq<Receipt>, plan: Plan) {
    forall key :: key in checkpoints && checkpoints[key].mark != Pending && Claimed(plan, key) ==>
      HasReceipt(receipts, key)
  }

  /** The invariant of the durable store. */
  ghost predicate Inv(s: Store, plan: Plan, p: Progress) {
    if s.runs == [] then s.checkpoints == map[]
    else
      var run := s.runs[|s.runs| - 1];
      && Runnable(plan, run.direction)
      && Epochs(s.runs, plan, p.closed)
      && Reapplied(|s.runs|, s.events)
      && Shape(s.checkpoints, plan, |s.runs|, run.direction, p.steps, p.rows)
      && Marks(s.checkpoints, plan, |s.runs|, run.direction, p.steps)
      && Effects(s.checkpoints, run, s.data, plan, p)
      && StatusHolds(run, plan, p)
      && Owned(s.checkpoints, s.receipts, plan)
  }
}
