/**
 * Whole runs on a backend whose DDL cannot be rolled back: admission, execution, failure handling,
 * reconciliation, and any sequence of these under any faults.
 */
module Nontransactional {
  import opened Options
  import opened Plans
  import opened Journal
  import opened JournalSteps
  import opened Connections
  import opened NontransactionalSteps
  import opened ReconcileSteps

  /** The UPDATE that closes a run, with its event. */
  function FinishRun(s: Store, epoch: nat, status: Status, error: Evidence, baseline: bool): Store {
    s.(runs := UpdateRun(s.runs, epoch, (run: Run) => run.(status := status, error := error, baseline := baseline)),
       events := s.events + [Event(RunStatus, epoch)] +
         if baseline && status == AppliedSuccess then [Event(Baseline, epoch)] else [])
  }

  /** The UPDATE that takes up an epoch again under a new run identity, with its event. */
  function RestartRun(s: Store, epoch: nat, runId: nat, direction: Direction): Store {
    s.(runs := UpdateRun(s.runs, epoch, (run: Run) =>
         run.(status := Applying, runId := runId, direction := direction, error := NoError)),
       events := s.events + [Event(RunResumed, epoch)])
  }

  /** The INSERT of a new epoch, with its events. */
  function InsertRun(s: Store, epoch: nat, checksum: string, runId: nat, baseline: bool, existing: Option<Run>): Store {
    s.(runs := s.runs + [Run(epoch, checksum, Applying, runId, Upgrade, NoError, baseline, s.data)],
       events := s.events + [Event(RunStarted, epoch)] +
         if existing.Some? && existing.value.status == RolledBack
         then [Event(Reapply(existing.value.epoch), epoch)] else [])
  }

  lemma UpdateLast(runs: seq<Run>, change: Run -> Run)
    requires runs != [] && forall i :: 0 <= i < |runs| ==> runs[i].epoch == i + 1
    ensures UpdateRun(runs, |runs|, change) == runs[|runs| - 1 := change(runs[|runs| - 1])]
  {
    hide UpdateRun;
    var updated, last := UpdateRun(runs, |runs|, change), |runs| - 1;
    forall i | 0 <= i < last ensures updated[i] == runs[i] {
      assert runs[i].epoch == i + 1;
    }
    assert updated[last] == change(runs[last]);
  }

  /** The journal row of this run, whatever its status has become. */
  ghost predicate Ours(s: Store, c: Context) {
    && s.runs != []
    && |s.runs| == |c.runs| && s.runs[..|s.runs| - 1] == c.runs[..|s.runs| - 1]
    && SameRun(Last(s), OwnRun(c)) && Last(s).direction == c.direction && Last(s).runId == c.runId
    && c.epoch == |s.runs|
  }

  ghost function OwnRun(c: Context): Run
    requires c.runs != []
  {
    c.runs[|c.runs| - 1]
  }

  lemma FinishKeeps(s: Store, c: Context, p: Progress,
                    status: Status, error: Evidence, baseline: bool)
    requires Inv(s, c.plan, p) && Ours(s, c)
    requires StatusHolds(Last(s).(status := status, error := error, baseline := baseline), c.plan, p)
    ensures var t := FinishRun(s, c.epoch, status, error, baseline);
      && Inv(t, c.plan, p) && Ours(t, c)
      && t.runs == s.runs[|s.runs| - 1 := Last(s).(status := status, error := error, baseline := baseline)]
      && t.checkpoints == s.checkpoints
  {
    var change := (run: Run) => run.(status := status, error := error, baseline := baseline);
    UpdateLast(s.runs, change);
    var t := FinishRun(s, c.epoch, status, error, baseline);
    assert t.runs == s.runs[|s.runs| - 1 := change(Last(s))];
    StatusStep(s, t, c.plan, p);
  }

  function FinalStatus(direction: Direction): Status {
    if direction == Rollback then RolledBack else AppliedSuccess
  }

  /** No checkpoint existed when the run began, or the run may have had effects. */
  ghost predicate Accounted(db: Connection, c: Context, possible: bool)
    reads db
  {
    !possible ==> Untouched(db.sent, c.epoch, c.direction) && (db.progress.rows > 0 ==> db.progress.unheard)
  }

  /** A run starts over no open checkpoint but one unheard of. */
  ghost predicate Untold(db: Connection)
    reads db
  {
    db.progress.rows > 0 ==> db.progress.unheard
  }

  /** Nothing in doubt, and every guard, claim and lock of the remaining steps holds. */
  ghost predicate Unobstructed(c: Context, p: Progress) {
    p.rows == 0 && StepsPass(c.direction, c.Steps(), p.steps, p.entry)
  }

  /** One of the remaining steps gets as far as a claim that is not met. */
  ghost predicate Disowned(c: Context, p: Progress) {
    p.rows == 0 && StepsDisowned(c.direction, c.Steps(), p.steps, p.entry)
  }

  /** A success needs every guard and claim, and an ownership error a claim that was not met ... */
  ghost predicate PlanEnds(c: Context, p: Progress, r: Signal) {
    && (r.Ok? ==> Unobstructed(c, p))
    && (r == Raised(OwnershipError) ==> Disowned(c, p))
  }

  /** ... and where nothing fails these decide. */
  ghost predicate PlanDecides(c: Context, p: Progress, r: Signal) {
    && (Unobstructed(c, p) ==> r.Ok?)
    && (Disowned(c, p) ==> r == Raised(OwnershipError))
  }

  /** The same guards and claims are still to come. */
  ghost predicate SameAhead(c: Context, p: Progress, q: Progress) {
    && (Unobstructed(c, p) <==> Unobstructed(c, q)) && (Disowned(c, p) <==> Disowned(c, q))
    && RunRest(c.Steps(), q.steps, q.entry) == RunRest(c.Steps(), p.steps, p.entry)
  }

  lemma SameSelf(c: Context, p: Progress)
    ensures SameAhead(c, p, p)
  {
  }

  lemma MovedOn(c: Context, first: Progress, p: Progress, q: Progress, k: nat)
    requires k < |c.Steps()| && k <= p.steps && SameAhead(c, first, p)
    requires if k < p.steps then q == p
      else q.steps == k + 1 && q.rows == 0 && q.entry == RunStep(c.Steps()[k], p.entry) && p.rows == 0
           && StepPasses(c.direction, c.Steps()[k], p.entry)
    ensures SameAhead(c, first, q)
  {
    hide RunStep, StepPasses;
    if k == p.steps {
      PassingIsOwned(c.direction, c.Steps()[k], p.entry);
    }
  }

  lemma PassingIsOwned(direction: Direction, step: Step, d: Data)
    requires StepPasses(direction, step, d)
    ensures !StepDisowned(direction, step, d)
  {
    hide RunStep, Passes, Prefix;
  }

  /** The step at `k` ended the run; `first` is where the run began. */
  lemma StoppedBy(c: Context, first: Progress, p: Progress, k: nat, r: Signal)
    requires k == p.steps < |c.Steps()| && p.rows == 0 && SameAhead(c, first, p) && !r.Ok?
    ensures StepEnds(c, c.Steps()[k], p.entry, r) ==> PlanEnds(c, first, r)
    ensures StepDecides(c, c.Steps()[k], p.entry, r) ==> PlanDecides(c, first, r)
  {
    hide RunStep, StepPasses, StepDisowned;
  }

  /** An error of another kind decides nothing; beside an open step it was due. */
  lemma OtherStops(c: Context, first: Progress, r: Signal)
    requires !r.Ok? && r != Raised(OwnershipError)
    ensures PlanEnds(c, first, r) && (first.rows > 0 ==> PlanDecides(c, first, r))
  {
  }

  lemma AllAhead(c: Context, first: Progress, p: Progress, r: Signal)
    requires SameAhead(c, first, p) && p.steps == |c.Steps()| && p.rows == 0 && r != Raised(OwnershipError)
    ensures PlanEnds(c, first, r) && (r.Ok? ==> PlanDecides(c, first, r))
  {
  }

  /** The run is about to send the first statement of its direction, and no guard comes before it. */
  ghost predicate Opening(c: Context, p: Progress) {
    p.steps == 0 && p.rows == 0 && c.Steps() != [] && Unguarded(c.direction, c.Steps()[0])
  }

  /** The steps of the plan in order. */
  method RunPlan(db: Connection, c: Context, touched: bool) returns (r: Signal, possible: bool)
    requires Safe(db, c) && db.Clean(c.plan) && Accounted(db, c, touched) && (!touched ==> db.progress.rows == 0)
    modifies db`faults, db`durable, db`working, db`sent, db`progress, db`next
    ensures Safe(db, c)
    ensures r.Ok? ==> db.Clean(c.plan) && db.progress.steps == |c.Steps()|
    ensures !r.Crashed? ==> Accounted(db, c, possible)
    ensures OnlyThisRun(old(db.sent), db.sent, c) && (!possible ==> db.sent == old(db.sent))
    ensures PlanEnds(c, old(db.next), r)
    ensures old(db.faults) == [] ==> db.faults == [] && !r.Crashed? && PlanDecides(c, old(db.next), r)
    ensures old(db.faults) == [] && (Progressed(c, old(db.next)) ==> touched) ==> (possible <==> touched || Progressed(c, db.progress))
    ensures r.Ok? ==> db.durable.data == RunRest(c.Steps(), old(db.next.steps), old(db.next.entry))
    ensures old(db.next.rows) > 0 ==>
      && !r.Ok? && possible == touched && db.progress == old(db.progress) && db.durable == old(db.durable)
      && (old(db.faults) == [] ==> r == Raised(OtherError))
    ensures forall last :: !touched && Opening(c, old(db.next)) && CutAt(old(db.faults), 9, last) ==>
      Cut(db, r, possible, last, FirstIntent(old(db.next), c))
  {
    hide CutAt, Unguarded, Inv, Unobstructed, Disowned, SameAhead, PlanEnds, PlanDecides, StepEnds, StepDecides, Progressed,
      StepsPass, StepPasses, RunRest, RunStep, Connection.Books;
    possible := touched;
    ghost var first := db.next;
    SameSelf(c, first);
    r := db.Probe();
    if !r.Ok? {
      OtherStops(c, first, r);
      return;
    }
    StepsBounded(db.working, c, db.next);
    for k := 0 to |c.Steps()|
      invariant Safe(db, c) && db.Clean(c.plan) && k <= db.next.steps <= |c.Steps()|
      invariant Accounted(db, c, possible) && (!possible ==> db.next.rows == 0)
      invariant OnlyThisRun(old(db.sent), db.sent, c) && (!possible ==> db.sent == old(db.sent))
      invariant old(db.faults) == [] ==> db.faults == []
      invariant SameAhead(c, first, db.next)
      invariant old(db.faults) == [] && (Progressed(c, first) ==> touched) ==> (possible <==> touched || Progressed(c, db.progress))
      invariant first.rows > 0 ==>
        possible == touched && db.next == first && db.progress == old(db.progress) && db.durable == old(db.durable)
      invariant first.rows == 0 ==> db.next.rows == 0
      invariant forall last :: !touched && Opening(c, first) && CutAt(old(db.faults), 9, last) ==>
        k == 0 && !possible && CutAt(db.faults, 8, last) && db.next == first
    {
      ghost var before := db.next;
      r, possible := AdvanceStep(db, c, k, possible);
      if !r.Ok? {
        if before.steps == k && before.rows == 0 {
          StoppedBy(c, first, before, k, r);
        } else {
          OtherStops(c, first, r);
        }
        return;
      }
      StepAdvanced(c, before, k, r);
      MovedOn(c, first, before, db.next, k);
      StepsBounded(db.working, c, db.next);
    }
    AllStepsRun(db.working, c, db.next);
    r := db.Probe();
    AllAhead(c, first, db.next, r);
    RestDone(c, first, db.next);
  }

  lemma StepAdvanced(c: Context, p: Progress, k: nat, r: Signal)
    requires k < |c.Steps()| && r.Ok?
    ensures StepEnds(c, c.Steps()[k], p.entry, r) ==> StepPasses(c.direction, c.Steps()[k], p.entry)
  {
  }

  lemma RestDone(c: Context, first: Progress, p: Progress)
    requires SameAhead(c, first, p)
    ensures RunRest(c.Steps(), p.steps, p.entry) == RunRest(c.Steps(), first.steps, first.entry)
  {
  }

  lemma AllStepsRun(s: Store, c: Context, p: Progress)
    requires Active(s, c) && Inv(s, c.plan, p) && p.steps == |c.Steps()|
    ensures s.data == p.entry == RunRest(c.Steps(), p.steps, p.entry)
  {
  }

  lemma StepsBounded(s: Store, c: Context, p: Progress)
    requires Active(s, c) && Inv(s, c.plan, p)
    ensures p.steps <= |c.Steps()|
    ensures p.steps == |c.Steps()| ==> p.rows == 0
  {
  }

  /** Only the journal rows and the event trail differ. */
  ghost predicate SameEffects(s: Store, t: Store) {
    t.checkpoints == s.checkpoints && t.data == s.data
  }

  /** Closing a run with the given status and committing it. */
  method CloseRun(db: Connection, ghost c: Context, epoch: nat, status: Status, error: Evidence, baseline: bool) returns (r: Signal)
    requires db.Clean(c.plan) && Ours(db.durable, c) && epoch == c.epoch
    requires var run := Last(db.durable).(status := status, error := error, baseline := baseline);
      StatusHolds(run, c.plan, db.progress)
    requires status == FailedRetryable && error == NoSideEffects ==> Untouched(db.sent, c.epoch, c.direction)
    modifies db`faults, db`durable, db`working, db`sent, db`progress, db`next
    ensures db.Valid(c.plan) && Ours(db.durable, c) && db.sent == old(db.sent) && db.progress == old(db.progress)
    ensures r.Raised? ==> r.failure == OtherError
    ensures r.Ok? ==>
      && db.Clean(c.plan)
      && db.durable.runs == Closed(old(db.durable.runs), status, error, baseline)
      && db.durable.data == old(db.durable.data)
    ensures db.durable.runs == old(db.durable.runs) || db.durable.runs == Closed(old(db.durable.runs), status, error, baseline)
    ensures SameEffects(old(db.durable), db.durable)
    ensures old(db.faults) == [] ==> r.Ok? && db.faults == []
  {
    hide Inv;
    ghost var s := db.working;
    FinishKeeps(s, c, db.next, status, error, baseline);
    assert SameEffects(s, FinishRun(s, epoch, status, error, baseline));
    var t := FinishRun(db.working, epoch, status, error, baseline);
    r := db.Save(c.plan, t, db.next);
  }

  /** The journal with its last row closed. */
  function Closed(runs: seq<Run>, status: Status, error: Evidence, baseline: bool): seq<Run>
    requires runs != []
  {
    runs[|runs| - 1 := runs[|runs| - 1].(status := status, error := error, baseline := baseline)]
  }

  lemma StatusFacts(s: Store, plan: Plan, p: Progress)
    requires s.runs != [] && Inv(s, plan, p)
    ensures StatusHolds(Last(s), plan, p)
    ensures Last(s).epoch == |s.runs| && Last(s).checksum == plan.checksum
  {
  }

  /** The journal after the run of `c` has succeeded. */
  function Success(c: Context, baseline: bool): seq<Run>
    requires c.runs != []
  {
    Closed(c.runs, if baseline then AppliedSuccess else FinalStatus(c.direction), NoError, baseline)
  }

  /** The guarded part of a run: an acknowledged baseline, or the whole plan. */
  method Attempt(db: Connection, c: Context, touched: bool, baseline: bool) returns (r: Signal, possible: bool)
    requires Safe(db, c) && db.Clean(c.plan) && Accounted(db, c, touched) && Untold(db)
    requires !touched ==> db.progress.rows == 0
    modifies db`faults, db`durable, db`working, db`sent, db`progress, db`next
    ensures db.Valid(c.plan) && Ours(db.durable, c)
    ensures db.durable.runs == c.runs || db.durable.runs == Success(c, baseline)
    ensures r.Ok? ==> db.Clean(c.plan) && db.durable.runs == Success(c, baseline)
    ensures r.Raised? ==> Accounted(db, c, possible)
    ensures OnlyThisRun(old(db.sent), db.sent, c) && (!possible ==> db.sent == old(db.sent))
    ensures if baseline then r != Raised(OwnershipError) else PlanEnds(c, old(db.next), r)
    ensures old(db.faults) == [] ==>
      db.faults == [] && !r.Crashed? && if baseline then r.Ok? else PlanDecides(c, old(db.next), r)
    ensures old(db.faults) == [] && !baseline && (Progressed(c, old(db.next)) ==> touched) ==>
      (possible <==> touched || Progressed(c, db.progress))
    ensures r.Ok? && !baseline ==> db.durable.data == RunRest(c.Steps(), old(db.next.steps), old(db.next.entry))
    ensures old(db.next.rows) > 0 ==>
      && possible == touched && db.progress == old(db.progress) && SameEffects(old(db.durable), db.durable)
      && (!baseline ==> !r.Ok? && (old(db.faults) == [] ==> r == Raised(OtherError)))
    ensures forall last :: !baseline && !touched && Opening(c, old(db.next)) && CutAt(old(db.faults), 9, last) ==>
      Cut(db, r, possible, last, FirstIntent(old(db.next), c)) && (last.DiesAfter? ==> db.durable.runs == c.runs)
  {
    hide Inv, CutAt, Opening, Unobstructed, Disowned, PlanDecides, Progressed;
    possible := touched;
    StatusFacts(db.working, c.plan, db.next);
    if baseline {
      :- db.Probe();
      r := CloseRun(db, c, c.epoch, AppliedSuccess, NoError, true);
    } else {
      possible :- RunPlan(db, c, touched);
      StepsBounded(db.working, c, db.next);
      StatusFacts(db.working, c.plan, db.next);
      DirectionDone(db.working, c, db.next);
      r := CloseRun(db, c, c.epoch, FinalStatus(c.direction), NoError, false);
    }
  }

  lemma DirectionDone(s: Store, c: Context, p: Progress)
    requires Active(s, c) && Inv(s, c.plan, p) && p.steps == |c.Steps()|
    ensures StatusHolds(Last(s).(status := FinalStatus(c.direction), error := NoError, baseline := false), c.plan, p)
  {
  }

  /** The row of a failed run. */
  function FailedRow(runs: seq<Run>, failure: Failure, possible: bool, baseline: bool): seq<Run>
    requires runs != []
  {
    Closed(runs,
           if failure == OwnershipError then FailedFinal
           else if possible then UnknownRequiresReconciliation else FailedRetryable,
           if possible then PossibleSideEffects else NoSideEffects, baseline)
  }

  /** What a failed run leaves in the journal; a failure to write even that leaves the run as it was. */
  method RecordFailure(db: Connection, c: Context, failure: Failure, possible: bool, baseline: bool) returns (r: Signal)
    requires db.Valid(c.plan) && Ours(db.durable, c) && Accounted(db, c, possible)
    modifies db`faults, db`durable, db`working, db`sent, db`progress, db`next
    ensures db.Valid(c.plan) && Ours(db.durable, c) && db.sent == old(db.sent)
    ensures db.durable.runs == old(db.durable.runs) || db.durable.runs == FailedRow(old(db.durable.runs), failure, possible, baseline)
    ensures r.Ok? ==> db.durable.runs == FailedRow(old(db.durable.runs), failure, possible, baseline)
    ensures db.progress == old(db.progress) && SameEffects(old(db.durable), db.durable)
    ensures old(db.faults) == [] ==> r.Ok?
    ensures old(db.faults) == [] ==> db.faults == []
  {
    hide Inv;
    db.Discard();
    StatusFacts(db.working, c.plan, db.next);
    var status := if failure == OwnershipError then FailedFinal
                  else if possible then UnknownRequiresReconciliation else FailedRetryable;
    r := CloseRun(db, c, c.epoch, status, if possible then PossibleSideEffects else NoSideEffects, baseline);
  }

  // ---------- starting a run ----------

  /** Between commands the durable store is sound for the plan whose checksum it records. */
  ghost predicate Sound(db: Connection, catalog: string -> Plan)
    reads db
  {
    db.Valid(catalog(if db.durable.runs == [] then "" else Last(db.durable).checksum))
  }

  lemma EmptyIsSound(s: Store, plan: Plan, plan': Plan, p: Progress)
    requires s.runs == [] && Inv(s, plan, p)
    ensures Inv(s, plan', p)
  {
  }

  lemma RunsNumbered(s: Store, plan: Plan, p: Progress)
    requires Inv(s, plan, p)
    ensures forall i :: 0 <= i < |s.runs| ==> s.runs[i].epoch == i + 1
    ensures LatestRun(s.runs) == if s.runs == [] then None else Some(Last(s))
  {
    LatestIsLast(s.runs);
  }

  /** A rollback begins from scratch; a resumed run goes on where the last one stood. */
  ghost function Restarting(s: Store, p: Progress, runId: nat): Progress
    requires s.runs != []
  {
    if Last(s).status == AppliedSuccess then p.Begin(s.data, runId) else p
  }

  /** Where an admitted run starts. */
  ghost function Starting(s: Store, p: Progress, admission: Admission, runId: nat): Progress {
    if admission.Resume? && s.runs != [] then Restarting(s, p, runId) else p.Begin(s.data, runId)
  }

  lemma RestartedRuns(s: Store, plan: Plan, p: Progress, direction: Direction, runId: nat)
    requires s.runs != [] && Inv(s, plan, p)
    ensures RestartRun(s, |s.runs|, runId, direction).runs ==
      s.runs[|s.runs| - 1 := Last(s).(status := Applying, runId := runId, direction := direction, error := NoError)]
  {
    hide Inv, UpdateRun;
    RunsNumbered(s, plan, p);
    UpdateLast(s.runs, (run: Run) => run.(status := Applying, runId := runId, direction := direction, error := NoError));
  }

  lemma RestartKeeps(s: Store, plan: Plan, p: Progress, direction: Direction, runId: nat)
    requires s.runs != [] && Inv(s, plan, p) && UniqueIds(plan.Steps(direction))
    requires Admit(Some(Last(s)), plan.checksum, direction, true) == Resume(|s.runs|)
    ensures var t := RestartRun(s, |s.runs|, runId, direction);
      && Inv(t, plan, Restarting(s, p, runId))
      && RunEvolves(Last(s), Last(t))
      && (Restarting(s, p, runId).rows > 0 ==> Restarting(s, p, runId).unheard)
      && Restarting(s, p, runId).closed == p.closed
  {
    hide Inv, UpdateRun, UniqueIds;
    Facts(s, plan, p);
    RestartedRuns(s, plan, p, direction, runId);
    var t := RestartRun(s, |s.runs|, runId, direction);
    if Last(s).status == AppliedSuccess {
      TurnBack(s, t, plan, p, runId);
    } else {
      StatusStep(s, t, plan, p);
    }
  }

  /** Taking up the latest epoch: a resumed run, or the rollback of an applied one. */
  method ResumeRun(db: Connection, plan: Plan, direction: Direction) returns (r: Signal, c: Context)
    requires db.Clean(plan) && db.working.runs != [] && UniqueIds(plan.Steps(direction))
    requires Admit(Some(Last(db.working)), plan.checksum, direction, true) == Resume(|db.working.runs|)
    modifies db`faults, db`durable, db`working, db`sent, db`progress, db`next, db`freshId
    ensures db.Valid(plan) && db.sent == old(db.sent)
    ensures c == Context(plan, direction, |old(db.working.runs)|, old(db.freshId), c.runs)
    ensures c.runs == RestartRun(old(db.working), c.epoch, c.runId, direction).runs
    ensures r.Ok? ==> Active(db.durable, c) && db.Clean(plan) && Untold(db)
    ensures db.durable.runs == old(db.durable.runs) || db.durable.runs == c.runs
    ensures old(db.faults) == [] ==> r.Ok? && db.faults == []
    ensures r.Ok? ==> db.next == Restarting(old(db.working), old(db.next), c.runId)
    ensures (db.durable == old(db.durable) && db.progress == old(db.progress))
      || (db.durable.runs == c.runs && db.progress == Restarting(old(db.working), old(db.next), c.runId))
    ensures SameEffects(old(db.durable), db.durable)
    ensures r.Raised? ==> r.failure == OtherError
    ensures forall n: nat, last :: n >= 2 && CutAt(old(db.faults), n, last) ==> r.Ok? && CutAt(db.faults, n - 2, last)
  {
    hide Inv, Admit, UniqueIds, UpdateRun, Recorded, RunEvolves, CutAt, Restarting;
    ghost var s, p := db.working, db.next;
    var epoch, id := |db.working.runs|, db.freshId;
    RestartKeeps(s, plan, p, direction, id);
    RestartedRuns(s, plan, p, direction, id);
    Facts(s, plan, p);
    var t := RestartRun(db.working, epoch, id, direction);
    RecordedAnew(s, t, db.sent, id);
    c := Context(plan, direction, epoch, id, t.runs);
    db.freshId := id + 1;
    assert db.faults == old(db.faults);
    r := db.Save(plan, t, Restarting(s, p, id));
  }

  lemma OpenKeeps(s: Store, plan: Plan, p: Progress, runId: nat, baseline: bool)
    requires Inv(s, plan, p) && UniqueIds(plan.upgrade)
    requires s.runs != [] ==> Last(s).status == RolledBack
    ensures Inv(InsertRun(s, |s.runs| + 1, plan.checksum, runId, baseline, LatestRun(s.runs)), plan,
                p.Begin(s.data, runId))
  {
    hide Inv, UniqueIds, LatestRun;
    RunsNumbered(s, plan, p);
    var t := InsertRun(s, |s.runs| + 1, plan.checksum, runId, baseline, LatestRun(s.runs));
    if s.runs == [] {
      OpenFirst(s, t, plan, p, Last(t));
    } else {
      assert t.events[|t.events| - 1] == Event(Reapply(|s.runs|), |s.runs| + 1);
      OpenNext(s, t, plan, p, Last(t));
    }
  }

  /** Opening the first epoch, or the next one after a rollback. */
  method OpenRun(db: Connection, plan: Plan, baseline: bool) returns (r: Signal, c: Context)
    requires db.Clean(plan) && UniqueIds(plan.upgrade)
    requires db.working.runs != [] ==> Last(db.working).status == RolledBack
    modifies db`faults, db`durable, db`working, db`sent, db`progress, db`next, db`freshId
    ensures db.Valid(plan) && db.sent == old(db.sent)
    ensures c == Context(plan, Upgrade, |old(db.working.runs)| + 1, old(db.freshId), c.runs)
    ensures c.runs == old(db.working.runs) +
      [Run(c.epoch, plan.checksum, Applying, c.runId, Upgrade, NoError, baseline, old(db.working.data))]
    ensures r.Ok? ==> Active(db.durable, c) && db.Clean(plan) && db.progress.rows == 0
    ensures db.durable.runs == old(db.durable.runs) || db.durable.runs == c.runs
    ensures old(db.faults) == [] ==> r.Ok? && db.faults == []
    ensures r.Ok? ==> db.next == old(db.next).Begin(old(db.working.data), c.runId)
    ensures (db.durable == old(db.durable) && db.progress == old(db.progress))
      || (db.durable.runs == c.runs && db.progress == old(db.next).Begin(old(db.working.data), c.runId))
    ensures SameEffects(old(db.durable), db.durable)
    ensures r.Raised? ==> r.failure == OtherError
    ensures forall n: nat, last :: n >= 2 && CutAt(old(db.faults), n, last) ==> r.Ok? && CutAt(db.faults, n - 2, last)
  {
    hide Inv, UniqueIds, LatestRun, Recorded, CutAt;
    ghost var s, p := db.working, db.next;
    var id, epoch := db.freshId, |db.working.runs| + 1;
    OpenKeeps(s, plan, p, id, baseline);
    RunsNumbered(s, plan, p);
    var t := InsertRun(db.working, epoch, plan.checksum, id, baseline, LatestRun(db.working.runs));
    RecordedAnew(s, t, db.sent, id);
    db.freshId := id + 1;
    c := Context(plan, Upgrade, epoch, id, t.runs);
    assert db.faults == old(db.faults);
    r := db.Save(plan, t, p.Begin(s.data, id));
  }

  // ---------- the commands ----------

  datatype Outcome = AlreadyApplied | Declined | Completed(status: Status) | Failed(failure: Failure) | Died

  /** A step was open before, and still is: nothing was sent, and no checkpoint has changed. */
  ghost predicate Obstructed(s: Store, p: Progress, t: Store, q: Progress) {
    q == p && SameEffects(s, t)
  }

  /**
   * A run that ended right after its first intent became durable, at position `p`. Where the reply was lost
   * the journal says "no side effects" beside the open checkpoint; where the process died it says APPLYING.
   */
  ghost predicate CutOff(db: Connection, o: Outcome, last: Fault, p: Progress)
    reads db
  {
    && db.faults == [] && db.durable.runs != [] && Last(db.durable).runId == p.owner
    && match last
       case FailsAfter =>
         && o == Failed(OtherError) && db.progress == p.(unheard := true)
         && Last(db.durable).status == FailedRetryable && Last(db.durable).error == NoSideEffects
       case DiesAfter =>
         o == Died && db.progress == p && Last(db.durable).status == Applying
       case _ => false
  }

  /** The row of a failed run: final where ownership was not proven, retryable where nothing can have happened. */
  ghost predicate FailsAs(run: Run, failure: Failure, effects: bool) {
    && run.status == (match failure
                      case OwnershipError => FailedFinal
                      case OtherError => if effects then UnknownRequiresReconciliation else FailedRetryable)
    && run.error == (if effects then PossibleSideEffects else NoSideEffects)
  }

  /** A run that has been admitted: its plan, and what it leaves in the journal when that fails. */
  method RunAdmitted(db: Connection, c: Context, touched: bool, baseline: bool) returns (o: Outcome)
    requires Safe(db, c) && db.Clean(c.plan) && Accounted(db, c, touched) && Untold(db)
    requires !touched ==> db.progress.rows == 0
    modifies db`faults, db`durable, db`working, db`sent, db`progress, db`next
    ensures db.Valid(c.plan) && Ours(db.durable, c)
    ensures OnlyThisRun(old(db.sent), db.sent, c)
    ensures db.sent != old(db.sent) ==> Last(db.durable).status != FailedRetryable
    ensures o.Completed? ==> db.durable.runs == Success(c, baseline) && o.status == Last(db.durable).status
    ensures o.Failed? || o.Died? || o.Completed?
    ensures o.Completed? && !baseline ==> Unobstructed(c, old(db.next))
    ensures o == Failed(OwnershipError) ==> !baseline && Disowned(c, old(db.next))
    ensures old(db.faults) == [] ==>
      && !o.Died? && (baseline || Unobstructed(c, old(db.next)) ==> o.Completed?)
      && (!baseline && Disowned(c, old(db.next)) ==> o == Failed(OwnershipError))
    ensures old(db.faults) == [] && o.Failed? && (Progressed(c, old(db.next)) ==> touched) ==>
      FailsAs(Last(db.durable), o.failure, touched || Progressed(c, db.progress))
    ensures o.Completed? ==> o.status == if baseline then AppliedSuccess else FinalStatus(c.direction)
    ensures o.Completed? && !baseline ==> db.durable.data == RunRest(c.Steps(), old(db.next.steps), old(db.next.entry))
    ensures old(db.faults) == [] && o.Failed? ==> Last(db.durable).status in {FailedFinal, UnknownRequiresReconciliation, FailedRetryable}
    ensures old(db.next.rows) > 0 ==> Obstructed(old(db.durable), old(db.progress), db.durable, db.progress)
    ensures old(db.next.rows) > 0 && !baseline ==>
      !o.Completed? && (old(db.faults) == [] && touched ==> o.Failed? && Last(db.durable).status == UnknownRequiresReconciliation)
    ensures forall last :: !baseline && !touched && Opening(c, old(db.next)) && CutAt(old(db.faults), 9, last) ==>
      CutOff(db, o, last, FirstIntent(old(db.next), c))
    ensures old(db.faults) == [] ==> db.faults == []
  {
    hide Inv, CutAt, Opening, Unobstructed, Disowned, Progressed;
    var r, possible := Attempt(db, c, touched, baseline);
    match r
    case Ok =>
      o := Completed(if baseline then AppliedSuccess else FinalStatus(c.direction));
    case Crashed =>
      o := Died;
    case Raised(failure) =>
      var recorded := RecordFailure(db, c, failure, possible, baseline);
      o := if recorded.Crashed? then Died else Failed(failure);
  }

  function Ended(r: Signal): Outcome
    requires !r.Ok?
  {
    if r.Crashed? then Died else Failed(r.failure)
  }

  /** Only the run of the latest epoch and its direction sends statements. */
  ghost predicate OnlyLatest(sent: seq<Key>, sent': seq<Key>, runs: seq<Run>) {
    forall key :: key in sent' ==>
      || key in sent
      || (runs != [] && key.epoch == |runs| && key.direction == runs[|runs| - 1].direction)
  }

  /** A new epoch needs a rolled-back predecessor and an explicit reapply. */
  ghost predicate OpensOnlyAfterRollback(runs: seq<Run>, runs': seq<Run>, reapply: bool) {
    |runs'| > |runs| ==>
      |runs'| == |runs| + 1 && (runs != [] ==> runs[|runs| - 1].status == RolledBack && reapply)
  }

  lemma EvolvesTransitively(a: seq<Run>, b: seq<Run>, c: seq<Run>)
    requires Evolves(a, b) && Evolves(b, c)
    ensures Evolves(a, c)
  {
    forall i | 0 <= i < |a| ensures RunEvolves(a[i], c[i]) {
      assert RunEvolves(a[i], b[i]) && RunEvolves(b[i], c[i]);
    }
  }

  lemma OwnEvolves(s: Store, c: Context)
    requires Ours(s, c) && OwnRun(c).status == Applying && OwnRun(c).direction == c.direction
    ensures Evolves(c.runs, s.runs)
  {
    forall i | 0 <= i < |c.runs| ensures RunEvolves(c.runs[i], s.runs[i]) {
      if i < |c.runs| - 1 {
        assert c.runs[i] == c.runs[..|c.runs| - 1][i] == s.runs[i];
      }
    }
  }

  lemma ResumedEvolves(s: Store, plan: Plan, p: Progress, direction: Direction, runId: nat)
    requires s.runs != [] && Inv(s, plan, p) && UniqueIds(plan.Steps(direction))
    requires Admit(Some(Last(s)), plan.checksum, direction, true) == Resume(|s.runs|)
    ensures Evolves(s.runs, RestartRun(s, |s.runs|, runId, direction).runs)
  {
    hide Inv, UniqueIds, UpdateRun, RunEvolves;
    RestartKeeps(s, plan, p, direction, runId);
    RestartedRuns(s, plan, p, direction, runId);
    var t := RestartRun(s, |s.runs|, runId, direction);
    forall i | 0 <= i < |s.runs| ensures RunEvolves(s.runs[i], t.runs[i]) {
      Unchanged(s.runs[i]);
    }
  }

  lemma NothingEvolves(runs: seq<Run>)
    ensures Evolves(runs, runs)
  {
  }

  lemma OpenedEvolves(runs: seq<Run>, run: Run)
    ensures Evolves(runs, runs + [run])
  {
  }

  lemma Unchanged(run: Run)
    ensures RunEvolves(run, run)
  {
  }

  lemma StillSound(db: Connection, catalog: string -> Plan, plan: Plan)
    requires db.Valid(plan) && plan == catalog(plan.checksum)
    ensures Sound(db, catalog)
  {
    hide Inv;
    if db.durable.runs == [] {
      EmptyIsSound(db.durable, plan, catalog(""), db.progress);
    } else {
      Facts(db.durable, plan, db.progress);
    }
  }

  /** The journal once the run of `c` is in it, from what it was before. */
  ghost predicate Begun(runs: seq<Run>, c: Context, reapply: bool) {
    && c.epoch == |c.runs| && c.runs != []
    && OwnRun(c).status == Applying && OwnRun(c).direction == c.direction && OwnRun(c).checksum == c.plan.checksum
    && OwnRun(c).runId == c.runId
    && Evolves(runs, c.runs) && OpensOnlyAfterRollback(runs, c.runs, reapply)
  }

  lemma ResumeBegins(s: Store, plan: Plan, p: Progress, direction: Direction, reapply: bool, runId: nat)
    requires Inv(s, plan, p) && UniqueIds(plan.Steps(direction))
    requires Admit(LatestRun(s.runs), plan.checksum, direction, reapply).Resume?
    ensures s.runs != [] && Admit(Some(Last(s)), plan.checksum, direction, true) == Resume(|s.runs|)
    ensures Begun(s.runs, Context(plan, direction, |s.runs|, runId, RestartRun(s, |s.runs|, runId, direction).runs), reapply)
    ensures |RestartRun(s, |s.runs|, runId, direction).runs| == |s.runs|
  {
    hide Inv, UniqueIds, UpdateRun, LatestRun, Evolves;
    RunsNumbered(s, plan, p);
    Facts(s, plan, p);
    ResumedEvolves(s, plan, p, direction, runId);
    RestartedRuns(s, plan, p, direction, runId);
  }

  lemma OpenBegins(s: Store, plan: Plan, p: Progress, direction: Direction, reapply: bool, run: Run, runId: nat)
    requires Inv(s, plan, p)
    requires Admit(LatestRun(s.runs), plan.checksum, direction, reapply).Open?
    requires run.status == Applying && run.direction == Upgrade && run.checksum == plan.checksum && run.runId == runId
    ensures direction == Upgrade && (s.runs != [] ==> Last(s).status == RolledBack)
    ensures Begun(s.runs, Context(plan, direction, |s.runs| + 1, runId, s.runs + [run]), reapply)
  {
    hide Inv, LatestRun, Evolves;
    RunsNumbered(s, plan, p);
    if s.runs != [] {
      Facts(s, plan, p);
    }
    OpenedEvolves(s.runs, run);
  }

  /** The first write of a run: the journal row that makes it known. */
  method Begin(db: Connection, plan: Plan, direction: Direction, baseline: bool, reapply: bool, admission: Admission)
    returns (r: Signal, c: Context)
    requires db.Clean(plan) && UniqueIds(plan.Steps(direction))
    requires admission == Admit(LatestRun(db.working.runs), plan.checksum, direction, reapply)
    requires admission.Resume? || admission.Open?
    modifies db`faults, db`durable, db`working, db`sent, db`progress, db`next, db`freshId
    ensures db.Valid(plan) && db.sent == old(db.sent)
    ensures c.plan == plan && c.direction == direction && Begun(old(db.durable.runs), c, reapply)
    ensures r.Ok? ==> Active(db.durable, c) && db.Clean(plan) && Untold(db)
    ensures db.durable.runs == old(db.durable.runs) || db.durable.runs == c.runs
    ensures old(db.faults) == [] ==> r.Ok? && db.faults == []
    ensures r.Ok? ==> db.next == Starting(old(db.working), old(db.next), admission, c.runId)
    ensures (db.durable == old(db.durable) && db.progress == old(db.progress))
      || (db.durable.runs == c.runs && db.progress == Starting(old(db.working), old(db.next), admission, c.runId))
    ensures |c.runs| > |old(db.durable.runs)| ==> c.runs != [] && OwnRun(c).origin == old(db.durable.data)
    ensures c.runId == old(db.freshId) && (admission.Open? ==> c.epoch == |old(db.durable.runs)| + 1 && c.direction == Upgrade)
    ensures SameEffects(old(db.durable), db.durable)
    ensures r.Raised? ==> r.failure == OtherError
    ensures forall n: nat, last :: n >= 2 && CutAt(old(db.faults), n, last) ==> r.Ok? && CutAt(db.faults, n - 2, last)
  {
    hide CutAt, SameEffects;
    hide Inv, UniqueIds, UpdateRun, LatestRun, Admit, Begun, RestartRun, Connection.Books, Restarting;
    ghost var s, p := db.working, db.next;
    if admission.Resume? {
      ResumeBegins(s, plan, p, direction, reapply, db.freshId);
      r, c := ResumeRun(db, plan, direction);
    } else {
      OpenBegins(s, plan, p, direction, reapply,
        Run(|s.runs| + 1, plan.checksum, Applying, db.freshId, Upgrade, NoError, baseline, s.data), db.freshId);
      r, c := OpenRun(db, plan, baseline);
    }
  }

  /** The plan can be run in this direction, and the journal admits the run. */
  ghost predicate Admissible(s: Store, plan: Plan, direction: Direction, reapply: bool) {
    var admission := Admit(LatestRun(s.runs), plan.checksum, direction, reapply);
    && (direction == Rollback ==> !reapply && !plan.irreversible) && UniqueIds(plan.Steps(direction))
    && (admission.Resume? || admission.Open?)
  }

  /** And nothing in the plan stands in its way. */
  ghost predicate WillRun(s: Store, p: Progress, plan: Plan, direction: Direction, baseline: bool, reapply: bool) {
    var start := Starting(s, p, Admit(LatestRun(s.runs), plan.checksum, direction, reapply), 0);
    && Admissible(s, plan, direction, reapply)
    && (baseline || (start.rows == 0 && StepsPass(direction, plan.Steps(direction), start.steps, start.entry)))
  }

  /** Or a claim in it is the first thing that does: the guards and claims before it hold. */
  ghost predicate WillDisown(s: Store, p: Progress, plan: Plan, direction: Direction, reapply: bool) {
    var start := Starting(s, p, Admit(LatestRun(s.runs), plan.checksum, direction, reapply), 0);
    && Admissible(s, plan, direction, reapply)
    && start.rows == 0 && StepsDisowned(direction, plan.Steps(direction), start.steps, start.entry)
  }

  lemma WillRunMeans(s: Store, p: Progress, c: Context, baseline: bool, reapply: bool)
    requires Admissible(s, c.plan, c.direction, reapply)
    ensures
      var start := Starting(s, p, Admit(LatestRun(s.runs), c.plan.checksum, c.direction, reapply), c.runId);
      && (WillRun(s, p, c.plan, c.direction, baseline, reapply) <==> baseline || Unobstructed(c, start))
      && (WillDisown(s, p, c.plan, c.direction, reapply) <==> Disowned(c, start))
  {
    hide StepsDisowned, StepsPass, UniqueIds, LatestRun;
  }

  /** A statement of this epoch and direction has a checkpoint. */
  ghost predicate Marked(s: Store, epoch: nat, direction: Direction) {
    exists key :: key in s.checkpoints && key.epoch == epoch && key.direction == direction && key.index >= 0
  }

  /** There was a checkpoint of this epoch and direction before, or there is one of a statement now. */
  ghost predicate EverMarked(s: Store, t: Store, epoch: nat, direction: Direction) {
    || (exists key :: key in s.checkpoints && key.epoch == epoch && key.direction == direction)
    || Marked(t, epoch, direction)
  }

  /** A direction has progressed exactly when a statement of it has a checkpoint. */
  lemma MarkedIff(s: Store, c: Context, p: Progress)
    requires s.runs != [] && Inv(s, c.plan, p) && |s.runs| == c.epoch && Last(s).direction == c.direction
    ensures Marked(s, c.epoch, c.direction) <==> Progressed(c, p)
  {
    hide Marks, Effects, Owned, Epochs, Reapplied, StatusHolds;
    if Progressed(c, p) {
      var j := if p.rows > 0 then p.steps else FirstSql(c, p);
      ProgressBounded(s, c, p);
      IndexOfUnique(c.Steps(), j);
      assert Key(c.epoch, c.direction, c.Steps()[j].id, 0) in s.checkpoints;
    }
    if Marked(s, c.epoch, c.direction) {
      var key :| key in s.checkpoints && key.epoch == c.epoch && key.direction == c.direction && key.index >= 0;
      var j := IndexOf(c.Steps(), key.op);
      assert Reached(c.Steps(), key.op, key.index, (p.steps, p.rows));
      assert j < p.steps ==> c.Steps()[j].statements != [];
    }
  }

  ghost function FirstSql(c: Context, p: Progress): (j: nat)
    requires exists j :: 0 <= j < p.steps && j < |c.Steps()| && c.Steps()[j].statements != []
    ensures j < p.steps && j < |c.Steps()| && c.Steps()[j].statements != []
  {
    var j: nat :| j < p.steps && j < |c.Steps()| && c.Steps()[j].statements != [];
    j
  }

  lemma ProgressBounded(s: Store, c: Context, p: Progress)
    requires s.runs != [] && Inv(s, c.plan, p) && Last(s).direction == c.direction
    ensures UniqueIds(c.Steps()) && (p.rows > 0 ==> p.steps < |c.Steps()| && c.Steps()[p.steps].statements != [])
  {
    Facts(s, c.plan, p);
  }

  /** The last look before the run: have earlier runs of this epoch and direction left checkpoints? */
  method RunBegun(db: Connection, c: Context, baseline: bool) returns (o: Outcome)
    requires Safe(db, c) && db.Clean(c.plan) && Untold(db)
    modifies db`faults, db`durable, db`working, db`sent, db`progress, db`next
    ensures db.Valid(c.plan) && Ours(db.durable, c)
    ensures OnlyThisRun(old(db.sent), db.sent, c)
    ensures db.sent != old(db.sent) ==> Last(db.durable).status != FailedRetryable
    ensures o.Completed? ==> Last(db.durable).status == o.status && Last(db.durable).baseline == baseline
    ensures o.Failed? || o.Died? || o.Completed?
    ensures o.Completed? && !baseline ==> Unobstructed(c, old(db.next))
    ensures o == Failed(OwnershipError) ==> !baseline && Disowned(c, old(db.next))
    ensures old(db.faults) == [] ==>
      && !o.Died? && (baseline || Unobstructed(c, old(db.next)) ==> o.Completed?)
      && (!baseline && Disowned(c, old(db.next)) ==> o == Failed(OwnershipError))
    ensures old(db.faults) == [] && o.Failed? ==>
      FailsAs(Last(db.durable), o.failure, EverMarked(old(db.durable), db.durable, c.epoch, c.direction))
    ensures o.Completed? ==> o.status == if baseline then AppliedSuccess else FinalStatus(c.direction)
    ensures o.Completed? && !baseline ==> db.durable.data == RunRest(c.Steps(), old(db.next.steps), old(db.next.entry))
    ensures old(db.next.rows) > 0 ==> Obstructed(old(db.durable), old(db.progress), db.durable, db.progress)
    ensures old(db.next.rows) > 0 && !baseline ==>
      !o.Completed? && (old(db.faults) == [] ==> o.Failed? && Last(db.durable).status == UnknownRequiresReconciliation)
    ensures
      var untouched := forall key :: key in old(db.durable).checkpoints ==> !(key.epoch == c.epoch && key.direction == c.direction);
      forall last :: !baseline && untouched && Opening(c, old(db.next)) && CutAt(old(db.faults), 10, last) ==>
        CutOff(db, o, last, FirstIntent(old(db.next), c))
    ensures old(db.faults) == [] ==> db.faults == []
  {
    hide Inv, CutAt, Opening, CutOff, Unobstructed, Disowned, Progressed, FailsAs;
    MarkedIff(db.working, c, db.next);
    var touched := exists key :: key in db.working.checkpoints && key.epoch == c.epoch && key.direction == c.direction;
    var r := db.Probe();
    if !r.Ok? { return Ended(r); }
    if db.progress.rows > 0 {
      InProgress(db.working, c, db.next);
    }
    o := RunAdmitted(db, c, touched, baseline);
    MarkedIff(db.durable, c, db.progress);
  }

  /** An open step has a checkpoint to be found. */
  lemma InProgress(s: Store, c: Context, p: Progress)
    requires Active(s, c) && Inv(s, c.plan, p) && p.rows > 0
    ensures exists key :: key in s.checkpoints && key.epoch == c.epoch && key.direction == c.direction
  {
    CurrentRow(s, c, p, 0);
    assert StepKey(c, p.steps, 0) in s.checkpoints;
  }

  /** What a completed run makes of the user tables: it runs the steps that are left, each once, in order. */
  ghost function Result(s: Store, p: Progress, plan: Plan, direction: Direction, reapply: bool): Data {
    var start := Starting(s, p, Admit(LatestRun(s.runs), plan.checksum, direction, reapply), 0);
    RunRest(plan.Steps(direction), start.steps, start.entry)
  }

  /** Outside a retry those are all of them, so no trust in any guard is needed. */
  lemma WholeResult(s: Store, p: Progress, plan: Plan, direction: Direction, reapply: bool)
    requires s.runs != [] ==> Last(s).status != FailedRetryable
    requires s.runs != [] ==> Some(Last(s)) == LatestRun(s.runs)
    requires var admission := Admit(LatestRun(s.runs), plan.checksum, direction, reapply); admission.Resume? || admission.Open?
    ensures Result(s, p, plan, direction, reapply) == RunAll(plan.Steps(direction), s.data)
  {
    hide LatestRun;
    RestOfAll(plan.Steps(direction), 0, s.data);
  }

  lemma StartsAlike(s: Store, p: Progress, admission: Admission, c: Context, q: Progress)
    requires q == Starting(s, p, admission, c.runId)
    ensures q.steps == Starting(s, p, admission, 0).steps && q.entry == Starting(s, p, admission, 0).entry
  {
  }

  /** The run ended in doubt, with nothing of its own to inspect. */
  ghost predicate Undecided(db: Connection, o: Outcome, direction: Direction)
    reads db
  {
    && o.Failed? && db.durable.runs != [] && Last(db.durable).direction == direction
    && Last(db.durable).status == UnknownRequiresReconciliation
    && CurrentRows(db.durable, Last(db.durable)) == {}
  }

  /** An epoch of the plan more. */
  ghost predicate Opens(s: Store, t: Store, plan: Plan) {
    |t.runs| == |s.runs| + 1 && Last(t).checksum == plan.checksum && Last(t).direction == Upgrade
  }

  /** The user tables are those of the start until an epoch opens, and an epoch opens over what is there. */
  ghost predicate Pinned(s: Store, t: Store) {
    && (t.runs == [] ==> s.runs == [] && t.data == s.data)
    && (|t.runs| > |s.runs| ==> t.runs[|t.runs| - 1].origin == s.data)
  }

  /** A checkpoint is open that the latest run does not own, or that the journal says cannot be there. */
  ghost predicate Doomed(s: Store, p: Progress) {
    s.runs != [] && p.rows > 0 && (p.owner != Last(s).runId || Last(s).status == FailedRetryable)
  }

  /** It still is, and the latest run is the same or has left nothing to inspect. */
  ghost predicate StillDoomed(s: Store, p: Progress, t: Store, q: Progress) {
    && Doomed(t, q) && Obstructed(s, p, t, q)
    && s.runs != [] && (Last(t).runId == Last(s).runId || CurrentRows(t, Last(t)) == {})
  }

  /** Such a store admits only a run that goes on where the last one stood. */
  lemma DoomedResumes(s: Store, plan: Plan, p: Progress, direction: Direction, reapply: bool, runId: nat)
    requires Inv(s, plan, p) && Doomed(s, p)
    requires var admission := Admit(LatestRun(s.runs), plan.checksum, direction, reapply); admission.Resume? || admission.Open?
    ensures
      var admission := Admit(LatestRun(s.runs), plan.checksum, direction, reapply);
      admission.Resume? && Starting(s, p, admission, runId) == p
  {
    hide Inv, LatestRun;
    RunsNumbered(s, plan, p);
    OpenIsNotDone(s, plan, p);
  }

  lemma OpenIsNotDone(s: Store, plan: Plan, p: Progress)
    requires s.runs != [] && Inv(s, plan, p) && p.rows > 0
    ensures Last(s).status != RolledBack && (Last(s).status == AppliedSuccess ==> Last(s).baseline)
    ensures Last(s).epoch == |s.runs|
  {
    hide Inv;
    Facts(s, plan, p);
  }

  /** The owner of the open checkpoint was drawn before any run to come. */
  lemma OwnerIsOld(s: Store, plan: Plan, p: Progress, freshId: nat)
    requires s.runs != [] && Inv(s, plan, p) && p.rows > 0
    requires forall key :: key in s.checkpoints ==> s.checkpoints[key].runId < freshId
    ensures p.owner < freshId
  {
    InDoubt(s, plan, p);
    StepFacts(s, plan, p);
    assert KeyAt(s, plan, p, 0) in s.checkpoints;
  }

  lemma DoomedGoesOn(s: Store, p: Progress, t: Store, q: Progress, runId: nat)
    requires Doomed(s, p) && Obstructed(s, p, t, q) && t.runs != [] && Last(t).runId == runId
    requires p.owner < runId && forall key :: key in s.checkpoints ==> s.checkpoints[key].runId < runId
    ensures StillDoomed(s, p, t, q) && CurrentRows(t, Last(t)) == {}
  {
  }

  lemma DoomedStays(s: Store, p: Progress, t: Store, q: Progress)
    requires Doomed(s, p) && Obstructed(s, p, t, q) && t.runs == s.runs
    ensures StillDoomed(s, p, t, q)
  {
  }

  /** An epoch that is still to be opened has no checkpoint. */
  lemma NewEpochIsUntouched(s: Store, plan: Plan, p: Progress, key: Key)
    requires Inv(s, plan, p) && key in s.checkpoints
    ensures key.epoch != |s.runs| + 1
  {
    hide Marks, Owned, Effects, Epochs, Reapplied, StatusHolds;
  }

  /** A run from its first write to its last. */
  method RunFrom(db: Connection, plan: Plan, direction: Direction, baseline: bool, reapply: bool, admission: Admission)
    returns (o: Outcome)
    requires db.Clean(plan) && UniqueIds(plan.Steps(direction))
    requires admission == Admit(LatestRun(db.working.runs), plan.checksum, direction, reapply)
    requires Admissible(db.working, plan, direction, reapply)
    modifies db`faults, db`durable, db`working, db`sent, db`progress, db`next, db`freshId
    ensures db.Valid(plan)
    ensures Evolves(old(db.durable.runs), db.durable.runs)
    ensures OpensOnlyAfterRollback(old(db.durable.runs), db.durable.runs, reapply)
    ensures OnlyLatest(old(db.sent), db.sent, db.durable.runs)
    ensures db.sent != old(db.sent) ==> db.durable.runs != [] && Last(db.durable).status != FailedRetryable
    ensures o.Failed? || o.Died? || o.Completed?
    ensures o.Completed? ==>
      db.durable.runs != [] && Last(db.durable).status == o.status && Last(db.durable).baseline == baseline
    ensures old(db.faults) == [] && WillRun(old(db.durable), old(db.progress), plan, direction, baseline, reapply) ==>
      o == Completed(if baseline then AppliedSuccess else FinalStatus(direction))
    ensures o.Completed? ==> WillRun(old(db.durable), old(db.progress), plan, direction, baseline, reapply)
    ensures o == Failed(OwnershipError) ==> !baseline && WillDisown(old(db.durable), old(db.progress), plan, direction, reapply)
    ensures old(db.faults) == [] && !baseline && WillDisown(old(db.durable), old(db.progress), plan, direction, reapply) ==>
      o == Failed(OwnershipError)
    ensures old(db.faults) == [] ==>
      && !o.Died? && db.durable.runs != []
      && (o.Failed? ==> FailsAs(Last(db.durable), o.failure, EverMarked(old(db.durable), db.durable, |db.durable.runs|, direction)))
    ensures o.Completed? && !baseline ==>
      db.durable.data == Result(old(db.durable), old(db.progress), plan, direction, reapply)
    ensures Pinned(old(db.durable), db.durable)
    ensures Doomed(old(db.durable), old(db.progress)) ==>
      && StillDoomed(old(db.durable), old(db.progress), db.durable, db.progress)
      && (!baseline ==> !o.Completed? && (old(db.faults) == [] ==> Undecided(db, o, direction)))
    ensures
      var opens := Admit(LatestRun(old(db.durable).runs), plan.checksum, direction, reapply).Open?;
      var unguarded := plan.upgrade != [] && UniqueIds(plan.upgrade) && Unguarded(Upgrade, plan.upgrade[0]);
      forall last :: opens && !baseline && unguarded && CutAt(old(db.faults), 12, last) ==>
        && CutOff(db, o, last, Progress(0, 1, 0, old(db.durable).data, old(db.freshId), false, old(db.closed)))
        && Opens(old(db.durable), db.durable, plan)
    ensures old(db.faults) == [] ==> db.faults == []
  {
    hide Inv, UniqueIds, LatestRun, Admit, Evolves, WillRun, Unobstructed, Starting, RunEvolves, Connection.Books, CutAt;
    hide CutOff, CurrentRows, Unguarded, Disowned, WillDisown, FailsAs, EverMarked;
    ghost var s, p, id := db.working, db.next, db.freshId;
    NothingEvolves(s.runs);
    BooksSay(db, s);
    if Doomed(s, p) {
      DoomedResumes(s, plan, p, direction, reapply, id);
      OwnerIsOld(s, plan, p, id);
    }
    var r, c := Begin(db, plan, direction, baseline, reapply, admission);
    if !r.Ok? {
      if Doomed(s, p) && db.durable.runs == s.runs {
        DoomedStays(s, p, db.durable, db.progress);
      } else if Doomed(s, p) {
        DoomedGoesOn(s, p, db.durable, db.progress, id);
      }
      return Ended(r);
    }
    if admission.Open? {
      forall key | key in db.durable.checkpoints ensures key.epoch != c.epoch {
        assert key in s.checkpoints by {
          SameKeys(s, db.durable);
        }
        NewEpochIsUntouched(s, plan, p, key);
      }
      OpeningAtStart(s, p, admission, c, db.next);
    }
    WillRunMeans(s, p, c, baseline, reapply);
    ghost var sent := db.sent;
    StartsAlike(s, p, admission, c, db.next);
    ghost var t := db.durable;
    o := RunBegun(db, c, baseline);
    if Doomed(s, p) {
      DoomedGoesOn(s, p, db.durable, db.progress, id);
    }
    SameMarks(s, t, db.durable, c.epoch, direction);
    OwnEvolves(db.durable, c);
    EvolvesTransitively(s.runs, c.runs, db.durable.runs);
    OwnIsLatest(db.durable, c, sent, db.sent);
  }

  lemma SameMarks(s: Store, s': Store, t: Store, epoch: nat, direction: Direction)
    requires SameEffects(s, s')
    ensures EverMarked(s, t, epoch, direction) <==> EverMarked(s', t, epoch, direction)
  {
  }

  lemma SameKeys(s: Store, t: Store)
    requires SameEffects(s, t)
    ensures t.checkpoints == s.checkpoints
  {
  }

  lemma BooksSay(db: Connection, s: Store)
    requires db.Books(s)
    ensures forall key :: key in s.checkpoints ==> s.checkpoints[key].runId < db.freshId
  {
  }

  lemma OpeningAtStart(s: Store, p: Progress, admission: Admission, c: Context, q: Progress)
    requires admission.Open? && q == Starting(s, p, admission, c.runId)
    ensures c.Steps() != [] && Unguarded(c.direction, c.Steps()[0]) ==> Opening(c, q)
    ensures q == p.Begin(s.data, c.runId)
  {
  }

  lemma OwnIsLatest(s: Store, c: Context, sent: seq<Key>, sent': seq<Key>)
    requires Ours(s, c) && OnlyThisRun(sent, sent', c)
    ensures OnlyLatest(sent, sent', s.runs)
  {
  }

  /** Nothing was run yet, or what was run is rolled back. */
  ghost predicate OverRollback(s: Store) {
    s.runs != [] ==> Last(s).status == RolledBack
  }

  lemma AdmissibleOpens(s: Store, plan: Plan, reapply: bool)
    requires LatestRun(s.runs) == if s.runs == [] then None else Some(Last(s))
    ensures Admissible(s, plan, Upgrade, reapply) && OverRollback(s) ==>
      Admit(LatestRun(s.runs), plan.checksum, Upgrade, reapply).Open? && UniqueIds(plan.upgrade)
  {
    hide LatestRun, UniqueIds;
  }

  lemma WillRunIsAdmissible(s: Store, p: Progress, plan: Plan, direction: Direction, baseline: bool, reapply: bool)
    ensures WillRun(s, p, plan, direction, baseline, reapply) ==> Admissible(s, plan, direction, reapply)
  {
  }

  lemma WillDisownIsAdmissible(s: Store, p: Progress, plan: Plan, direction: Direction, reapply: bool)
    ensures WillDisown(s, p, plan, direction, reapply) ==> Admissible(s, plan, direction, reapply)
  {
  }

  lemma NothingHappened(s: Store, p: Progress, sent: seq<Key>, reapply: bool)
    ensures Evolves(s.runs, s.runs) && OpensOnlyAfterRollback(s.runs, s.runs, reapply) && OnlyLatest(sent, sent, s.runs)
    ensures Pinned(s, s) && (Doomed(s, p) ==> StillDoomed(s, p, s, p))
  {
  }

  /** Whether a run may start; if not, how the command ends. */
  method Consider(db: Connection, plan: Plan, direction: Direction, reapply: bool)
    returns (early: Option<Outcome>, admission: Admission)
    modifies db`faults
    ensures admission == Admit(LatestRun(db.working.runs), plan.checksum, direction, reapply)
    ensures early.None? ==> Admissible(db.working, plan, direction, reapply)
    ensures early.Some? ==> !early.value.Completed? && early.value != Failed(OwnershipError)
    ensures early == Some(Outcome.AlreadyApplied) ==> admission.AlreadyApplied?
    ensures early == Some(Declined) ==> admission.Refused?
    ensures old(db.faults) == [] ==> db.faults == [] && (Admissible(db.working, plan, direction, reapply) ==> early.None?)
    ensures forall n: nat, last :: n >= 1 && CutAt(old(db.faults), n, last) && Admissible(db.working, plan, direction, reapply) ==>
      early.None? && CutAt(db.faults, n - 1, last)
  {
    hide UniqueIds, LatestRun, Admit, CutAt;
    early, admission := None, Admit(LatestRun(db.working.runs), plan.checksum, direction, reapply);
    if direction == Rollback && (reapply || plan.irreversible) { return Some(Failed(OtherError)), admission; }
    if !UniqueIds(plan.Steps(direction)) { return Some(Failed(OtherError)), admission; }
    var r := db.Probe();
    if !r.Ok? { return Some(Ended(r)), admission; }
    if admission.AlreadyApplied? { return Some(Outcome.AlreadyApplied), admission; }
    if admission.Refused? { return Some(Declined), admission; }
  }

  /** Executing one direction of a plan. `catalog` says which plan a checksum stands for. */
  method Execute(db: Connection, plan: Plan, direction: Direction, baseline: bool, reapply: bool,
                 ghost catalog: string -> Plan) returns (o: Outcome)
    requires Sound(db, catalog) && plan == catalog(plan.checksum)
    modifies db`faults, db`durable, db`working, db`sent, db`progress, db`next, db`freshId
    ensures Sound(db, catalog)
    ensures o.AlreadyApplied? ==> Admit(LatestRun(old(db.durable).runs), plan.checksum, direction, reapply).AlreadyApplied?
    ensures o.Declined? ==> Admit(LatestRun(old(db.durable).runs), plan.checksum, direction, reapply).Refused?
    ensures o.AlreadyApplied? || o.Declined? ==> db.durable == old(db.durable) && db.sent == old(db.sent)
    ensures Evolves(old(db.durable.runs), db.durable.runs)
    ensures OpensOnlyAfterRollback(old(db.durable.runs), db.durable.runs, reapply)
    ensures OnlyLatest(old(db.sent), db.sent, db.durable.runs)
    ensures db.sent != old(db.sent) ==> db.durable.runs != [] && Last(db.durable).status != FailedRetryable
    ensures o.Completed? ==>
      db.durable.runs != [] && Last(db.durable).status == o.status && Last(db.durable).baseline == baseline
    ensures old(db.faults) == [] && WillRun(old(db.durable), old(db.progress), plan, direction, baseline, reapply) ==>
      o == Completed(if baseline then AppliedSuccess else FinalStatus(direction))
    ensures o.Completed? ==> WillRun(old(db.durable), old(db.progress), plan, direction, baseline, reapply)
    ensures o == Failed(OwnershipError) ==> !baseline && WillDisown(old(db.durable), old(db.progress), plan, direction, reapply)
    ensures old(db.faults) == [] && !baseline && WillDisown(old(db.durable), old(db.progress), plan, direction, reapply) ==>
      o == Failed(OwnershipError)
    ensures old(db.faults) == [] && Admissible(old(db.durable), plan, direction, reapply) ==>
      && !o.Died? && db.durable.runs != []
      && (o.Failed? ==> FailsAs(Last(db.durable), o.failure, EverMarked(old(db.durable), db.durable, |db.durable.runs|, direction)))
    ensures !Admissible(old(db.durable), plan, direction, reapply) ==>
      db.durable == old(db.durable) && db.sent == old(db.sent) && !o.Completed?
    ensures o.Completed? && !baseline ==>
      db.durable.data == Result(old(db.durable), old(db.progress), plan, direction, reapply)
    ensures Pinned(old(db.durable), db.durable)
    ensures Doomed(old(db.durable), old(db.progress)) ==>
      && StillDoomed(old(db.durable), old(db.progress), db.durable, db.progress)
      && (!baseline ==>
            !o.Completed? && (old(db.faults) == [] && Admissible(old(db.durable), plan, direction, reapply) ==> Undecided(db, o, direction)))
    ensures
      var opens := Admissible(old(db.durable), plan, Upgrade, reapply) && OverRollback(old(db.durable));
      var unguarded := plan.upgrade != [] && Unguarded(Upgrade, plan.upgrade[0]);
      forall last :: direction == Upgrade && opens && !baseline && unguarded && CutAt(old(db.faults), 13, last) ==>
        && CutOff(db, o, last, Progress(0, 1, 0, old(db.durable).data, old(db.freshId), false, old(db.closed)))
        && Opens(old(db.durable), db.durable, plan)
    ensures old(db.faults) == [] ==> db.faults == []
  {
    hide Inv, UniqueIds, LatestRun, Admit, Evolves, WillRun, Unobstructed, Starting, RunEvolves, Connection.Books, CutAt;
    hide WillDisown, FailsAs, EverMarked, CurrentRows, Unguarded, OverRollback, CutOff, Undecided, Doomed, StillDoomed, Pinned, OnlyLatest,
      OpensOnlyAfterRollback, Result, Opens;
    db.Discard();
    ghost var s, p := db.durable, db.progress;
    RunsNumbered(s, catalog(if s.runs == [] then "" else Last(s).checksum), p);
    AdmissibleOpens(s, plan, reapply);
    WillRunIsAdmissible(s, p, plan, direction, baseline, reapply);
    WillDisownIsAdmissible(s, p, plan, direction, reapply);
    NothingHappened(s, p, db.sent, reapply);
    var early, admission := Consider(db, plan, direction, reapply);
    if early.Some? { return early.value; }
    AdmittedPlan(db.working, catalog, plan, db.next, direction, reapply);
    o := RunFrom(db, plan, direction, baseline, reapply, admission);
    StillSound(db, catalog, plan);
  }

  /** An admitted plan is the one the journal was opened with. */
  lemma AdmittedPlan(s: Store, catalog: string -> Plan, plan: Plan, p: Progress, direction: Direction, reapply: bool)
    requires Inv(s, catalog(if s.runs == [] then "" else Last(s).checksum), p)
    requires plan == catalog(plan.checksum)
    requires !Admit(LatestRun(s.runs), plan.checksum, direction, reapply).Refused?
    ensures Inv(s, plan, p)
  {
    hide LatestRun;
    if s.runs == [] {
      EmptyIsSound(s, catalog(""), plan, p);
    } else {
      hide Inv;
      RunsNumbered(s, catalog(Last(s).checksum), p);
    }
  }

  // ---------- reconciliation ----------

  datatype Decision = NoDecision | Abandon | VerifiedRetry

  datatype Verdict = NotStarted | Inspected(visible: Status, retryAllowed: bool) | AbandonedRun | RetryAllowed | Rejected | Interrupted

  /** A run that never reported back is as uncertain as one that reported uncertainty. */
  function Visible(status: Status): Status {
    if status == Applying then UnknownRequiresReconciliation else status
  }

  function MarkOperation(checkpoints: map<Key, Checkpoint>, epoch: nat, d: Direction, op: string): map<Key, Checkpoint> {
    map key | key in checkpoints ::
      if key.epoch == epoch && key.direction == d && key.op == op then checkpoints[key].(mark := Done) else checkpoints[key]
  }

  /** Every inspected checkpoint matches the plan, and no claimed insert is merely pending. */
  method CheckRows(s: Store, plan: Plan, current: set<Key>) returns (r: Signal)
    requires current <= s.checkpoints.Keys
    ensures r.Ok? <==> forall key :: key in current ==> RowProven(s, plan, key)
    ensures r.Ok? || r == Raised(OtherError)
  {
    var todo := current;
    while todo != {}
      invariant todo <= current
      invariant forall key :: key in current - todo ==> RowProven(s, plan, key)
    {
      var key :| key in todo;
      if !RowProven(s, plan, key) { return Raised(OtherError); }
      todo := todo - {key};
    }
    assert current - todo == current;
    r := Ok;
  }

  /** A step without SQL has one checkpoint, and it is done. */
  predicate GuardRowDone(checkpoints: map<Key, Checkpoint>, plan: Plan, current: set<Key>, epoch: nat, d: Direction, op: string) {
    var i := IndexOf(plan.Steps(d), op);
    i >= 0 && plan.Steps(d)[i].statements == [] ==>
      var key := Key(epoch, d, op, -1);
      && (set k | k in current && k.direction == d && k.op == op) == {key}
      && key in checkpoints && checkpoints[key].mark == Done
  }

  ghost predicate OperationDone(s: Store, plan: Plan, current: set<Key>, epoch: nat, d: Direction, op: string) {
    OperationProven(s, plan, current, epoch, d, op) && GuardRowDone(s.checkpoints, plan, current, epoch, d, op)
  }

  /** What a verified retry asks of the rows of the latest run. */
  ghost predicate Evidenced(s: Store, plan: Plan)
    requires s.runs != []
  {
    var current := CurrentRows(s, Last(s));
    forall key :: key in current ==>
      && RowProven(s, plan, key)
      && OperationProven(s, plan, current, Last(s).epoch, key.direction, key.op)
      && GuardRowDone(s.checkpoints, plan, current, Last(s).epoch, key.direction, key.op)
  }

  lemma MarksKeepGuardRows(s: map<Key, Checkpoint>, t: map<Key, Checkpoint>, plan: Plan, current: set<Key>, epoch: nat,
                           ops: set<(Direction, string)>, d: Direction, op: string)
    requires MarkedDone(s, t, plan, epoch, ops) && GuardRowDone(s, plan, current, epoch, d, op)
    ensures GuardRowDone(t, plan, current, epoch, d, op)
  {
  }

  /** A row that nothing marked was done before. */
  lemma GuardRowsBefore(s: map<Key, Checkpoint>, t: map<Key, Checkpoint>, plan: Plan, current: set<Key>, epoch: nat,
                        ops: set<(Direction, string)>, d: Direction, op: string)
    requires MarkedDone(s, t, plan, epoch, ops) && (d, op) !in ops && GuardRowDone(t, plan, current, epoch, d, op)
    ensures GuardRowDone(s, plan, current, epoch, d, op)
  {
  }

  /** One touched operation: complete, with postconditions that pass; then its checkpoints are done. */
  method ReconcileOperation(db: Connection, plan: Plan, epoch: nat, current: set<Key>, d: Direction, op: string)
    returns (r: Signal)
    requires current <= db.working.checkpoints.Keys
    modifies db`faults, db`working, db`next
    ensures r.Ok? ==> OperationProven(old(db.working), plan, current, epoch, d, op)
    ensures r.Ok? ==> db.next == old(db.next)
    ensures r.Ok? ==> db.working == if HasSql(plan, d, op)
      then old(db.working).(checkpoints := MarkOperation(old(db.working).checkpoints, epoch, d, op)) else old(db.working)
    ensures r.Ok? ==> GuardRowDone(old(db.working).checkpoints, plan, current, epoch, d, op)
    ensures old(db.faults) == [] ==> db.faults == []
    ensures old(db.faults) == [] && OperationDone(old(db.working), plan, current, epoch, d, op) ==> r.Ok?
  {
    var i := IndexOf(plan.Steps(d), op);
    if i < 0 { return Raised(OtherError); }
    var step := plan.Steps(d)[i];
    if step.statements == [] {
      var rows := set key | key in current && key.direction == d && key.op == op;
      if rows != {Key(epoch, d, op, -1)} || db.working.checkpoints[Key(epoch, d, op, -1)].mark != Done {
        return Raised(OtherError);
      }
      return Ok;
    }
    if exists h :: 0 <= h < |step.statements| && Key(epoch, d, op, h) !in current { return Raised(OtherError); }
    if step.after == [] { return Raised(OtherError); }
    :- RunGuards(db, step.after);
    :- db.Probe();
    r := db.Write(db.working.(checkpoints := MarkOperation(db.working.checkpoints, epoch, d, op)), db.next);
  }

  lemma MarkOperationMarks(s: map<Key, Checkpoint>, t: map<Key, Checkpoint>, plan: Plan, epoch: nat,
                           ops: set<(Direction, string)>, d: Direction, op: string)
    requires MarkedDone(s, t, plan, epoch, ops)
    ensures HasSql(plan, d, op) ==> MarkedDone(s, MarkOperation(t, epoch, d, op), plan, epoch, ops + {(d, op)})
    ensures !HasSql(plan, d, op) ==> MarkedDone(s, t, plan, epoch, ops + {(d, op)})
  {
  }

  /** All touched operations, in any order: the first that cannot be proven ends it. */
  method ReconcileOperations(db: Connection, plan: Plan, ghost s: Store, epoch: nat, current: set<Key>) returns (r: Signal)
    requires db.working == s && s.runs != [] && current == CurrentRows(s, Last(s)) && epoch == Last(s).epoch
    requires forall key :: key in current ==> RowProven(s, plan, key)
    modifies db`faults, db`working, db`next
    ensures r.Ok? ==> Reconciled(s, db.working, plan) && db.next == old(db.next) && Evidenced(s, plan)
    ensures old(db.faults) == [] ==> db.faults == [] && (Evidenced(s, plan) ==> r.Ok?)
  {
    hide RowProven, HasSql, MarkedDone, OperationProven, GuardRowDone;
    var todo := OperationsOf(current);
    assert MarkedDone(s.checkpoints, s.checkpoints, plan, epoch, {}) by {
      NothingMarked(s.checkpoints, plan, epoch);
    }
    assert OperationsOf(current) - todo == {};
    while todo != {}
      invariant todo <= OperationsOf(current)
      invariant db.working == s.(checkpoints := db.working.checkpoints) && db.next == old(db.next)
      invariant MarkedDone(s.checkpoints, db.working.checkpoints, plan, epoch, OperationsOf(current) - todo)
      invariant current <= db.working.checkpoints.Keys
      invariant forall d, op :: (d, op) in OperationsOf(current) - todo ==>
        OperationProven(s, plan, current, epoch, d, op) && GuardRowDone(s.checkpoints, plan, current, epoch, d, op)
      invariant old(db.faults) == [] ==> db.faults == []
    {
      var touched :| touched in todo;
      var (d, op) := touched;
      ghost var t := db.working;
      ghost var marked := OperationsOf(current) - todo;
      if Evidenced(s, plan) {
        EvidencedOperation(s, plan, d, op);
        SameDataProven(t, s, plan, current, epoch, d, op);
        MarksKeepGuardRows(s.checkpoints, t.checkpoints, plan, current, epoch, marked, d, op);
      }
      :- ReconcileOperation(db, plan, epoch, current, d, op);
      SameDataProven(s, t, plan, current, epoch, d, op);
      GuardRowsBefore(s.checkpoints, t.checkpoints, plan, current, epoch, marked, d, op);
      MarkOperationMarks(s.checkpoints, t.checkpoints, plan, epoch, OperationsOf(current) - todo, d, op);
      assert OperationsOf(current) - (todo - {(d, op)}) == (OperationsOf(current) - todo) + {(d, op)};
      todo := todo - {(d, op)};
    }
    assert OperationsOf(current) - todo == OperationsOf(current);
    forall key | key in current
      ensures OperationProven(s, plan, current, epoch, key.direction, key.op)
      ensures GuardRowDone(s.checkpoints, plan, current, epoch, key.direction, key.op)
    {
      assert (key.direction, key.op) in OperationsOf(current);
    }
    r := Ok;
  }

  lemma EvidencedOperation(s: Store, plan: Plan, d: Direction, op: string)
    requires s.runs != [] && Evidenced(s, plan) && (d, op) in OperationsOf(CurrentRows(s, Last(s)))
    ensures OperationProven(s, plan, CurrentRows(s, Last(s)), Last(s).epoch, d, op)
    ensures GuardRowDone(s.checkpoints, plan, CurrentRows(s, Last(s)), Last(s).epoch, d, op)
  {
    var key :| key in CurrentRows(s, Last(s)) && (key.direction, key.op) == (d, op);
  }

  lemma NothingMarked(s: map<Key, Checkpoint>, plan: Plan, epoch: nat)
    ensures MarkedDone(s, s, plan, epoch, {})
  {
  }

  lemma SameDataProven(s: Store, t: Store, plan: Plan, current: set<Key>, epoch: nat, d: Direction, op: string)
    requires OperationProven(t, plan, current, epoch, d, op) && t.data == s.data
    ensures OperationProven(s, plan, current, epoch, d, op)
  {
  }

  lemma DecideKeeps(s: Store, plan: Plan, p: Progress, status: Status, error: Evidence)
    requires s.runs != [] && Inv(s, plan, p)
    requires !Frozen(Last(s)) && Last(s).status != AppliedSuccess
    requires status == Abandoned || (status == FailedRetryable && error == ReconciledVerified && (p.rows > 0 ==> p.unheard))
    ensures var t := FinishRun(s, |s.runs|, status, error, Last(s).baseline);
      && Inv(t, plan, p)
      && t == s.(runs := t.runs, events := t.events)
      && t.runs == Closed(s.runs, status, error, Last(s).baseline)
      && Evolves(s.runs, t.runs)
  {
    hide Inv, UpdateRun, Evolves;
    Facts(s, plan, p);
    var c := Context(plan, Last(s).direction, |s.runs|, Last(s).runId, s.runs);
    FinishKeeps(s, c, p, status, error, Last(s).baseline);
    var t := FinishRun(s, |s.runs|, status, error, Last(s).baseline);
    ClosedEvolves(s.runs, status, error);
  }

  lemma ClosedEvolves(runs: seq<Run>, status: Status, error: Evidence)
    requires runs != []
    requires !Frozen(runs[|runs| - 1]) && runs[|runs| - 1].status != AppliedSuccess
    ensures Evolves(runs, Closed(runs, status, error, runs[|runs| - 1].baseline))
  {
  }

  /** A closed row keeps what is on record about statements. */
  lemma BooksKept(db: Connection, s: Store, t: Store)
    requires db.Books(s) && s.runs != [] && t.runs != [] && t.checkpoints == s.checkpoints
    requires Last(t).runId == Last(s).runId && !(Last(t).status == FailedRetryable && Last(t).error == NoSideEffects)
    ensures db.Books(t)
  {
  }

  lemma DecideReady(db: Connection, plan: Plan, status: Status, error: Evidence)
    requires db.Ready(plan) && db.durable.runs == db.working.runs != []
    requires !Frozen(Last(db.durable)) && Last(db.durable).status != AppliedSuccess
    requires status == Abandoned || (status == FailedRetryable && error == ReconciledVerified && (db.next.rows > 0 ==> db.next.unheard))
    ensures
      var run := Last(db.durable);
      var t := FinishRun(db.working, run.epoch, status, error, run.baseline);
      && Inv(t, plan, db.next) && db.Books(t)
      && t.runs == Closed(db.durable.runs, status, error, run.baseline) && SameEffects(db.working, t)
  {
    hide Inv, FinishRun, Evolves, Frozen, Connection.Books;
    var s, run := db.working, Last(db.working);
    Facts(s, plan, db.next);
    DecideKeeps(s, plan, db.next, status, error);
    BooksKept(db, s, FinishRun(s, run.epoch, status, error, run.baseline));
  }

  /** The UPDATE that ends a run by an operator's decision. */
  method Decide(db: Connection, ghost plan: Plan, status: Status, error: Evidence) returns (r: Signal)
    requires db.Valid(plan) && db.Ready(plan) && db.durable.runs == db.working.runs != []
    requires !Frozen(Last(db.durable)) && Last(db.durable).status != AppliedSuccess
    requires status == Abandoned || (status == FailedRetryable && error == ReconciledVerified && (db.next.rows > 0 ==> db.next.unheard))
    modifies db`faults, db`durable, db`working, db`sent, db`progress, db`next
    ensures db.Valid(plan) && db.sent == old(db.sent)
    ensures db.durable.runs == old(db.durable.runs)
      || db.durable.runs == Closed(old(db.durable.runs), status, error, Last(old(db.durable)).baseline)
    ensures r.Ok? ==> db.durable.runs == Closed(old(db.durable.runs), status, error, Last(old(db.durable)).baseline)
    ensures (db.durable == old(db.durable) && db.progress == old(db.progress))
      || (SameEffects(old(db.working), db.durable) && db.progress == old(db.next))
    ensures r.Ok? ==> db.progress == old(db.next)
    ensures old(db.faults) == [] ==> r.Ok?
    ensures old(db.faults) == [] ==> db.faults == []
  {
    hide Inv, FinishRun, Frozen, Connection.Books, Closed;
    DecideReady(db, plan, status, error);
    var run := db.working.runs[|db.working.runs| - 1];
    r := db.Save(plan, FinishRun(db.working, run.epoch, status, error, run.baseline), db.next);
  }

  /** Closing the last row keeps all the others. */
  lemma Decided(s: Store, t: Store, status: Status, error: Evidence)
    requires s.runs != [] && !Frozen(Last(s)) && Last(s).status != AppliedSuccess
    requires t.runs == s.runs || t.runs == Closed(s.runs, status, error, Last(s).baseline)
    ensures t.runs != [] && Last(t).checksum == Last(s).checksum && |t.runs| == |s.runs| && Evolves(s.runs, t.runs)
    ensures t.runs == Closed(s.runs, status, error, Last(s).baseline) ==> Last(t).status == status && Last(t).error == error
  {
    hide Frozen, Evolves, RunEvolves;
    NothingEvolves(s.runs);
    ClosedEvolves(s.runs, status, error);
  }

  /** The latest run may have had effects that nobody has accounted for. */
  predicate Doubtful(s: Store) {
    s.runs != [] && s.runs[|s.runs| - 1].status in {Applying, UnknownRequiresReconciliation}
  }

  lemma DoubtfulIsOpen(run: Run)
    requires run.status in {Applying, UnknownRequiresReconciliation}
    ensures !Frozen(run) && Visible(run.status) == UnknownRequiresReconciliation
  {
  }

  lemma InspectionIsDoubt(run: Run)
    ensures Visible(run.status) == UnknownRequiresReconciliation <==> run.status in {Applying, UnknownRequiresReconciliation}
  {
  }

  /** An inspection shows a run in doubt as such, and says of every run whether a retry goes on with it. */
  ghost predicate Shows(s: Store, v: Verdict) {
    && s.runs != [] && v.Inspected?
    && v.visible == (if Doubtful(s) then UnknownRequiresReconciliation else Last(s).status)
    && (v.retryAllowed <==> Last(s).status == FailedRetryable)
    && (Last(s).direction == Upgrade || !Last(s).baseline ==>
          (v.retryAllowed <==> Admit(LatestRun(s.runs), Last(s).checksum, Last(s).direction, false).Resume?))
  }

  lemma InspectionShows(s: Store, plan: Plan, p: Progress)
    requires s.runs != [] && Inv(s, plan, p)
    ensures Shows(s, Inspected(Visible(Last(s).status), Last(s).status == FailedRetryable && HasProof(Last(s))))
  {
    hide Inv, LatestRun;
    RunsNumbered(s, plan, p);
    Facts(s, plan, p);
  }

  /** The reviewed plan is the attempted one, and the evidence for a retry is there. */
  ghost predicate MayRetry(s: Store, reviewed: Option<Plan>) {
    && Doubtful(s) && reviewed.Some? && reviewed.value.checksum == Last(s).checksum
    && UniqueIds(reviewed.value.upgrade) && UniqueIds(reviewed.value.rollback)
    && Evidenced(s, reviewed.value)
  }

  lemma RetryIsDoubtful(s: Store, reviewed: Option<Plan>)
    ensures MayRetry(s, reviewed) ==> Doubtful(s)
    ensures Doubtful(s) ==> s.runs != []
  {
  }

  /** Inspecting the latest run and, when asked, deciding what becomes of it. */
  method Reconcile(db: Connection, reviewed: Option<Plan>, apply: bool, decision: Decision, ghost catalog: string -> Plan)
    returns (v: Verdict)
    requires Sound(db, catalog)
    requires reviewed.Some? ==> reviewed.value == catalog(reviewed.value.checksum)
    modifies db
    ensures Sound(db, catalog)
    ensures db.sent == old(db.sent)
    ensures v.NotStarted? || v.Inspected? ==> db.durable == old(db.durable)
    ensures !Doubtful(old(db.durable)) ==> db.durable == old(db.durable)
    ensures v.NotStarted? ==> old(db.durable.runs) == []
    ensures v.Inspected? ==> !apply && Shows(old(db.durable), v)
    ensures old(db.faults) == [] && old(db.durable.runs) == [] ==> v == NotStarted
    ensures old(db.faults) == [] && old(db.durable.runs) != [] && !apply ==> v.Inspected?
    ensures v.AbandonedRun? ==> apply && decision == Abandon && Doubtful(old(db.durable))
    ensures Evolves(old(db.durable.runs), db.durable.runs) && |db.durable.runs| == |old(db.durable.runs)|
    ensures v.AbandonedRun? ==> db.durable.runs != [] && Last(db.durable).status == Abandoned
    ensures v.RetryAllowed? ==>
      && apply && decision == VerifiedRetry && db.durable.runs != [] && Last(db.durable).status == FailedRetryable && Last(db.durable).error == ReconciledVerified
      && MayRetry(old(db.durable), reviewed)
      && db.durable.runs == Closed(old(db.durable.runs), FailedRetryable, ReconciledVerified, Last(old(db.durable)).baseline)
      && db.progress == After(old(db.durable), old(db.progress))
    ensures db.durable.data == old(db.durable).data
    ensures ClosesAtMostOne(old(db.durable), old(db.progress), old(db.closed), db.closed)
    ensures !apply || decision != VerifiedRetry ==> db.closed == old(db.closed)
    ensures Doomed(old(db.durable), old(db.progress)) ==>
      StillDoomed(old(db.durable), old(db.progress), db.durable, db.progress)
    ensures old(db.faults) == [] && apply && Doubtful(old(db.durable)) && decision == Abandon ==> v.AbandonedRun?
    ensures old(db.faults) == [] && apply && decision == VerifiedRetry && MayRetry(old(db.durable), reviewed) ==> v.RetryAllowed?
    ensures old(db.faults) == [] ==> db.faults == []
  {
    hide Inv, UniqueIds, LatestRun, Evolves, Evidenced, Connection.Books, Frozen, RunEvolves, MayRetry, Visible, Shows;
    db.Discard();
    RetryIsDoubtful(db.durable, reviewed);
    NothingEvolves(db.durable.runs);
    var r := db.Probe();
    if r.Crashed? { return Interrupted; }
    if r.Raised? { return Rejected; }
    if db.working.runs == [] { return NotStarted; }
    ghost var plan := catalog(Last(db.working).checksum);
    Facts(db.working, plan, db.next);
    var run := db.working.runs[|db.working.runs| - 1];
    InspectionShows(db.working, plan, db.next);
    if !apply { return Inspected(Visible(run.status), run.status == FailedRetryable && HasProof(run)); }
    InspectionIsDoubt(run);
    if Visible(run.status) != UnknownRequiresReconciliation { return Rejected; }
    v := Conclude(db, plan, reviewed, decision);
    StillSound(db, catalog, plan);
  }

  /** What becomes of a run in doubt. */
  method Conclude(db: Connection, ghost plan: Plan, reviewed: Option<Plan>, decision: Decision) returns (v: Verdict)
    requires db.Clean(plan) && Doubtful(db.durable)
    requires reviewed.Some? && reviewed.value.checksum == Last(db.durable).checksum ==> reviewed.value == plan
    modifies db
    ensures db.Valid(plan) && db.sent == old(db.sent)
    ensures db.durable.runs != [] && Last(db.durable).checksum == Last(old(db.durable)).checksum
    ensures Evolves(old(db.durable.runs), db.durable.runs) && |db.durable.runs| == |old(db.durable.runs)|
    ensures !v.NotStarted? && !v.Inspected?
    ensures v.AbandonedRun? ==> Last(db.durable).status == Abandoned && decision == Abandon
    ensures v.RetryAllowed? ==>
      && decision == VerifiedRetry && Last(db.durable).status == FailedRetryable && Last(db.durable).error == ReconciledVerified
      && MayRetry(old(db.durable), reviewed)
      && db.durable.runs == Closed(old(db.durable.runs), FailedRetryable, ReconciledVerified, Last(old(db.durable)).baseline)
      && db.progress == After(old(db.durable), old(db.progress))
    ensures db.durable.data == old(db.durable).data
    ensures ClosesAtMostOne(old(db.durable), old(db.progress), old(db.closed), db.closed)
    ensures decision != VerifiedRetry ==> db.closed == old(db.closed)
    ensures Doomed(old(db.durable), old(db.progress)) ==>
      StillDoomed(old(db.durable), old(db.progress), db.durable, db.progress)
    ensures old(db.faults) == [] && decision == Abandon ==> v.AbandonedRun?
    ensures old(db.faults) == [] && decision == VerifiedRetry && MayRetry(old(db.durable), reviewed) ==> v.RetryAllowed?
    ensures old(db.faults) == [] ==> db.faults == []
  {
    hide Inv, UniqueIds, Evolves, Evidenced, Connection.Books, Frozen, RunEvolves;
    NothingEvolves(db.durable.runs);
    var run := db.working.runs[|db.working.runs| - 1];
    DoubtfulIsOpen(run);
    if decision == Abandon {
      var r := Decide(db, plan, Abandoned, run.error);
      Decided(old(db.durable), db.durable, Abandoned, run.error);
      v := if r.Ok? then AbandonedRun else if r.Crashed? then Interrupted else Rejected;
      return;
    }
    if decision != VerifiedRetry || reviewed.None? || reviewed.value.checksum != run.checksum { return Rejected; }
    var r := Verify(db, reviewed.value);
    v := if r.Ok? then RetryAllowed else if r.Crashed? then Interrupted else Rejected;
  }

  /** Reconciliation declares at most the step in progress finished. */
  ghost predicate ClosesAtMostOne(s: Store, p: Progress, closed: set<Reviewed>, closed': set<Reviewed>) {
    closed' == closed || (s.runs != [] && closed' == closed + {Reviewed(|s.runs|, Last(s).direction, p.steps)})
  }

  lemma NothingClosed(s: Store, p: Progress, closed: set<Reviewed>)
    ensures ClosesAtMostOne(s, p, closed, closed)
  {
  }

  /** The proof itself: every row inspected, every touched operation verified and marked. */
  method Prove(db: Connection, plan: Plan) returns (r: Signal)
    requires db.Clean(plan) && db.working.runs != []
    requires Last(db.working).status in {Applying, UnknownRequiresReconciliation}
    modifies db`faults, db`working, db`progress, db`next, db`closed
    ensures db.Valid(plan) && db.progress == old(db.progress).(closed := db.closed)
    ensures ClosesAtMostOne(old(db.durable), old(db.progress), old(db.closed), db.closed)
    ensures r.Ok? ==>
      && db.Ready(plan) && db.next == After(old(db.durable), old(db.progress))
      && db.working == old(db.durable).(checkpoints := db.working.checkpoints)
      && (db.next.rows > 0 ==> db.next.unheard) && Evidenced(old(db.durable), plan)
      && (Doomed(old(db.durable), old(db.progress)) ==>
            db.working.checkpoints == old(db.durable).checkpoints && db.next == old(db.next))
    ensures !r.Ok? ==> db.closed == old(db.closed)
    ensures old(db.faults) == [] ==> db.faults == [] && (Evidenced(old(db.durable), plan) ==> r.Ok?)
  {
    hide Inv, Reconciled, Evidenced, RowProven, AllProven;
    var run := db.working.runs[|db.working.runs| - 1];
    ghost var s, p := db.working, db.next;
    var current := CurrentRows(db.working, run);
    EvidencedRows(s, plan);
    :- CheckRows(db.working, plan, current);
    :- ReconcileOperations(db, plan, s, run.epoch, current);
    ReconcileKeeps(s, db.working, plan, p);
    if Doomed(s, p) {
      NoDoubt(s, db.working, plan, p);
    }
    ReconciledBooks(s, db.working, plan);
    TrustGrows(s, plan, p, After(s, p).closed);
    db.closed, db.next := After(s, p).closed, After(s, p);
    db.progress := p.(closed := db.closed);
    r := Ok;
  }

  /** The proof a verified retry needs, and the journal rows that record it. */
  method Verify(db: Connection, plan: Plan) returns (r: Signal)
    requires db.Clean(plan) && db.working.runs != []
    requires Last(db.working).status in {Applying, UnknownRequiresReconciliation}
    modifies db
    ensures db.Valid(plan) && db.sent == old(db.sent)
    ensures db.durable.runs != [] && Last(db.durable).checksum == Last(old(db.durable)).checksum
    ensures Evolves(old(db.durable.runs), db.durable.runs) && |db.durable.runs| == |old(db.durable.runs)|
    ensures r.Ok? ==>
      && Last(db.durable).status == FailedRetryable && Last(db.durable).error == ReconciledVerified
      && UniqueIds(plan.upgrade) && UniqueIds(plan.rollback) && Evidenced(old(db.working), plan)
      && db.durable.runs == Closed(old(db.durable.runs), FailedRetryable, ReconciledVerified, Last(old(db.durable)).baseline)
      && db.progress == After(old(db.durable), old(db.progress))
    ensures db.durable.data == old(db.durable).data
    ensures ClosesAtMostOne(old(db.durable), old(db.progress), old(db.closed), db.closed)
    ensures Doomed(old(db.durable), old(db.progress)) ==>
      StillDoomed(old(db.durable), old(db.progress), db.durable, db.progress)
    ensures old(db.faults) == [] && UniqueIds(plan.upgrade) && UniqueIds(plan.rollback) && Evidenced(old(db.working), plan) ==> r.Ok?
    ensures old(db.faults) == [] ==> db.faults == []
  {
    hide Inv, UniqueIds, Evolves, Evidenced, After, CurrentRows, ClosesAtMostOne, Recorded;
    NothingEvolves(db.durable.runs);
    NothingClosed(db.durable, db.progress, db.closed);
    if !UniqueIds(plan.upgrade) || !UniqueIds(plan.rollback) { return Raised(OtherError); }
    :- Prove(db, plan);
    r := Decide(db, plan, FailedRetryable, ReconciledVerified);
    Decided(old(db.durable), db.durable, FailedRetryable, ReconciledVerified);
  }

  lemma EvidencedRows(s: Store, plan: Plan)
    requires s.runs != []
    ensures Evidenced(s, plan) ==> forall key :: key in CurrentRows(s, Last(s)) ==> RowProven(s, plan, key)
  {
  }

  lemma ReconciledBooks(s: Store, t: Store, plan: Plan)
    requires s.runs != [] && Reconciled(s, t, plan)
    ensures t == s.(checkpoints := t.checkpoints)
    ensures forall key: Key :: key in t.checkpoints <==> key in s.checkpoints
    ensures forall key :: key in s.checkpoints ==> t.checkpoints[key].runId == s.checkpoints[key].runId
  {
  }

  // ---------- every history ----------

  datatype Command =
    | Migrate(plan: Plan, direction: Direction, baseline: bool, reapply: bool)
    | Resolve(reviewed: Option<Plan>, apply: bool, decision: Decision)

  ghost predicate Honest(command: Command, catalog: string -> Plan) {
    match command
    case Migrate(plan, _, _, _) => plan == catalog(plan.checksum)
    case Resolve(reviewed, _, _) => reviewed.Some? ==> reviewed.value == catalog(reviewed.value.checksum)
  }

  /** The command asks for a verified retry. */
  predicate Retries(command: Command) {
    command.Resolve? && command.apply && command.decision == VerifiedRetry
  }

  lemma StartKept(s: Store, t: Store)
    requires Evolves(s.runs, t.runs) && Pinned(s, t) && |t.runs| <= |s.runs| + 1
    ensures Start(t) == Start(s)
  {
    if s.runs != [] {
      assert RunEvolves(s.runs[0], t.runs[0]);
    }
  }

  /**
   * Any commands in any order, each with whatever faults are left in the script: the journal stays
   * sound, no statement is ever sent twice, and frozen rows stay what they are.
   */
  method Operate(db: Connection, commands: seq<Command>, ghost catalog: string -> Plan)
    requires Sound(db, catalog)
    requires forall i :: 0 <= i < |commands| ==> Honest(commands[i], catalog)
    modifies db
    ensures Sound(db, catalog)
    ensures Distinct(db.sent)
    ensures Evolves(old(db.durable.runs), db.durable.runs)
    ensures Start(db.durable) == Start(old(db.durable))
    ensures (forall i :: 0 <= i < |commands| ==> !Retries(commands[i])) ==> db.closed == old(db.closed)
    ensures Doomed(old(db.durable), old(db.progress)) ==>
      Doomed(db.durable, db.progress) && SameEffects(old(db.durable), db.durable)
  {
    hide Inv, Evolves, CurrentRows, Pinned, Start;
    NothingEvolves(db.durable.runs);
    for i := 0 to |commands|
      invariant Sound(db, catalog)
      invariant Evolves(old(db.durable.runs), db.durable.runs)
      invariant Start(db.durable) == Start(old(db.durable))
      invariant (forall h :: 0 <= h < i ==> !Retries(commands[h])) ==> db.closed == old(db.closed)
      invariant Doomed(old(db.durable), old(db.progress)) ==>
        Doomed(db.durable, db.progress) && SameEffects(old(db.durable), db.durable)
    {
      ghost var s, runs := db.durable, db.durable.runs;
      assert Honest(commands[i], catalog);
      match commands[i]
      case Migrate(plan, direction, baseline, reapply) =>
        var _ := Execute(db, plan, direction, baseline, reapply, catalog);
        EvolvesTransitively(old(db.durable.runs), runs, db.durable.runs);
        StartKept(s, db.durable);
      case Resolve(reviewed, apply, decision) =>
        var _ := Reconcile(db, reviewed, apply, decision, catalog);
        EvolvesTransitively(old(db.durable.runs), runs, db.durable.runs);
        StartKept(s, db.durable);
    }
  }
}
