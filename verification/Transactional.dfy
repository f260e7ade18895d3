/** The engine for backends with transactional DDL: one transaction holds the plan and its journal row. */
module TransactionalEngine {
  import opened Options
  import opened Plans
  import opened Journal
  import opened JournalSteps
  import opened Connections

  /** What one database holds: the journal, the event trail, the user tables. */
  datatype Book = Book(runs: seq<Run>, events: seq<Event>, data: Data)

  /** The plan a checksum stands for. */
  type Catalog = string -> Plan

  // ---------- admission ----------

  /** The epoch of the next run, unless the journal refuses one. */
  function NextEpoch(existing: Option<Run>, checksum: string, reapply: bool): Option<nat> {
    match existing
    case None => Some(1)
    case Some(run) =>
      if run.checksum != checksum then None
      else if run.status == Applying || run.status == UnknownRequiresReconciliation then None
      else if Terminal(run.status) then None
      else if run.status == RolledBack && !reapply then None
      else Some(run.epoch + 1)
  }

  datatype Entry = Refuse | Nothing | Reverse(epoch: nat) | Forward(epoch: nat)

  function Enter(existing: Option<Run>, checksum: string, direction: Direction, reapply: bool): Entry {
    match NextEpoch(existing, checksum, reapply)
    case None => Refuse
    case Some(epoch) =>
      if direction == Upgrade then
        if existing.Some? && existing.value.status == AppliedSuccess then Nothing else Forward(epoch)
      else if existing.None? || existing.value.status != AppliedSuccess || existing.value.baseline then Refuse
      else Reverse(existing.value.epoch)
  }

  /** An upgrade of this plan gets a row of its own: nothing was run yet, or it failed, or was rolled back and is asked for again. */
  ghost predicate MayOpen(runs: seq<Run>, checksum: string, reapply: bool) {
    runs != [] ==>
      var last := runs[|runs| - 1];
      last.checksum == checksum && (last.status == FailedRetryable || (last.status == RolledBack && reapply))
  }

  /** There is a success of this plan to be rolled back, and more than an acknowledged one. */
  ghost predicate MayReverse(runs: seq<Run>, checksum: string) {
    && runs != []
    && var last := runs[|runs| - 1];
    last.checksum == checksum && last.status == AppliedSuccess && !last.baseline
  }

  /** The last row is a success of this plan. */
  ghost predicate Stands(runs: seq<Run>, checksum: string) {
    runs != [] && runs[|runs| - 1].checksum == checksum && runs[|runs| - 1].status == AppliedSuccess
  }

  ghost predicate WellFormed(plan: Plan, direction: Direction, reapply: bool) {
    UniqueIds(plan.Steps(direction)) && (direction == Rollback ==> !reapply && !plan.irreversible)
  }

  /** The command is well formed, and the journal lets it write. */
  ghost predicate Admits(runs: seq<Run>, plan: Plan, direction: Direction, reapply: bool) {
    && WellFormed(plan, direction, reapply)
    && if direction == Upgrade then MayOpen(runs, plan.checksum, reapply) else MayReverse(runs, plan.checksum)
  }

  /** What `Enter` answers over settled rows. */
  lemma EnterMeans(runs: seq<Run>, checksum: string, direction: Direction, reapply: bool)
    requires Numbered(runs) && Settled(runs)
    ensures
      var entry := Enter(LatestRun(runs), checksum, direction, reapply);
      && (entry.Forward? <==> direction == Upgrade && MayOpen(runs, checksum, reapply))
      && (entry.Reverse? <==> direction == Rollback && MayReverse(runs, checksum))
      && (entry.Nothing? <==> direction == Upgrade && Stands(runs, checksum))
      && (entry.Forward? ==> entry.epoch == |runs| + 1)
  {
    LatestIsLast(runs);
    if runs != [] {
      assert runs[|runs| - 1] in runs;
    }
  }

  // ---------- what the journal means ----------

  /** What one journal row did to the user tables. */
  ghost function Replayed(catalog: Catalog, run: Run, d: Data): Data {
    var plan := catalog(run.checksum);
    if run.status == AppliedSuccess && !run.baseline then RunAll(plan.upgrade, d)
    else if run.status == RolledBack then RunAll(plan.rollback, RunAll(plan.upgrade, d))
    else d
  }

  /** The user tables that the journal, read from its first row on, stands for. */
  ghost function Replay(catalog: Catalog, runs: seq<Run>, d: Data): Data {
    if runs == [] then d
    else Replayed(catalog, runs[|runs| - 1], Replay(catalog, runs[..|runs| - 1], d))
  }

  ghost predicate Numbered(runs: seq<Run>) {
    forall i :: 0 <= i < |runs| ==> runs[i].epoch == i + 1
  }

  /** No row is ever seen half done. */
  ghost predicate Settled(runs: seq<Run>) {
    forall run :: run in runs ==>
      && (run.status == AppliedSuccess || run.status == FailedRetryable || run.status == RolledBack)
      && (run.status == RolledBack ==> !run.baseline)
  }

  /** Every row after a rolled-back one came with an explicit reapply. */
  ghost predicate ReappliedEach(runs: seq<Run>, events: seq<Event>) {
    forall i :: 0 <= i < |runs| - 1 && runs[i].status == RolledBack ==> Event(Reapply(i + 1), i + 2) in events
  }

  /** Success is always the last row. */
  ghost predicate SuccessIsLast(runs: seq<Run>) {
    forall i :: 0 <= i < |runs| - 1 ==> runs[i].status != AppliedSuccess
  }

  /** Under later rows lies no success but a baseline. */
  ghost predicate NoBuriedSuccess(runs: seq<Run>) {
    forall i :: 0 <= i < |runs| - 1 && runs[i].status == AppliedSuccess ==> runs[i].baseline
  }

  /** All rows are of one plan. */
  ghost predicate OneChecksum(runs: seq<Run>) {
    forall i, j :: 0 <= i < |runs| && 0 <= j < |runs| ==> runs[i].checksum == runs[j].checksum
  }

  ghost predicate Consistent(catalog: Catalog, origin: Data, lost: bool, b: Book) {
    && Numbered(b.runs) && OneChecksum(b.runs) && Settled(b.runs) && ReappliedEach(b.runs, b.events)
    && b.data == Replay(catalog, b.runs, origin)
    && (!lost ==> SuccessIsLast(b.runs))
  }

  function OpenRun(b: Book, plan: Plan, epoch: nat, status: Status, error: Evidence, baseline: bool, runId: nat): Run {
    Run(epoch, plan.checksum, status, runId, Upgrade, error, baseline, b.data)
  }

  /** A new row, and the reapply event when it opens over a rollback. */
  function Opened(b: Book, run: Run): Book {
    var last := |b.runs| - 1;
    b.(runs := b.runs + [run],
       events := b.events + [Event(RunStarted, run.epoch)]
                 + if b.runs != [] && b.runs[last].status == RolledBack then [Event(Reapply(b.runs[last].epoch), run.epoch)] else [])
  }

  /** The book a finished run commits. */
  function Finished(b: Book, status: Status, baseline: bool, direction: Direction, d: Data): Book
    requires b.runs != []
  {
    var last := |b.runs| - 1;
    Book(b.runs[..last] + [b.runs[last].(status := status, baseline := baseline, direction := direction, error := NoError)],
         b.events + [Event(RunStatus, b.runs[last].epoch)] + if baseline then [Event(Baseline, b.runs[last].epoch)] else [],
         d)
  }

  lemma ReplayPush(catalog: Catalog, runs: seq<Run>, run: Run, d: Data)
    ensures Replay(catalog, runs + [run], d) == Replayed(catalog, run, Replay(catalog, runs, d))
  {
    assert (runs + [run])[..|runs|] == runs;
  }

  /** Adding a settled row that stands for `after`. */
  lemma OpenKeeps(catalog: Catalog, origin: Data, lost: bool, b: Book, run: Run, events: seq<Event>, after: Data)
    requires Consistent(catalog, origin, lost, b) && run.epoch == |b.runs| + 1
    requires run.status == AppliedSuccess || run.status == FailedRetryable
    requires b.runs != [] ==> run.checksum == b.runs[|b.runs| - 1].checksum
    requires after == Replayed(catalog, run, b.data)
    requires !lost && b.runs != [] ==> b.runs[|b.runs| - 1].status != AppliedSuccess
    requires forall e :: e in Opened(b, run).events ==> e in events
    ensures Consistent(catalog, origin, lost, Book(b.runs + [run], events, after))
  {
    ReplayPush(catalog, b.runs, run, origin);
    var runs := b.runs + [run];
    forall i | 0 <= i < |runs| - 1 && runs[i].status == RolledBack ensures Event(Reapply(i + 1), i + 2) in events {
      if i < |b.runs| - 1 {
        assert b.runs[i].status == RolledBack;
        assert Event(Reapply(i + 1), i + 2) in b.events;
        assert Event(Reapply(i + 1), i + 2) in Opened(b, run).events;
      } else {
        assert Event(Reapply(b.runs[i].epoch), run.epoch) in Opened(b, run).events;
      }
    }
  }

  /** Turning the successful last row into a rolled-back one. */
  lemma ReverseKeeps(catalog: Catalog, origin: Data, lost: bool, b: Book, run: Run, events: seq<Event>)
    requires Consistent(catalog, origin, lost, b) && b.runs != []
    requires var last := b.runs[|b.runs| - 1];
      && last.status == AppliedSuccess && !last.baseline
      && run.epoch == last.epoch && run.checksum == last.checksum && run.status == RolledBack && !run.baseline
    requires b.events <= events
    ensures Consistent(catalog, origin, lost,
      Book(b.runs[..|b.runs| - 1] + [run], events, RunAll(catalog(run.checksum).rollback, b.data)))
  {
    var n := |b.runs| - 1;
    var runs := b.runs[..n] + [run];
    ReplayPush(catalog, b.runs[..n], run, origin);
    assert b.runs == b.runs[..n] + [b.runs[n]];
    forall i | 0 <= i < |runs| - 1 && runs[i].status == RolledBack ensures Event(Reapply(i + 1), i + 2) in events {
      assert runs[i] == b.runs[i];
      var e := Event(Reapply(i + 1), i + 2);
      assert e in b.events;
      var k :| 0 <= k < |b.events| && b.events[k] == e;
      assert events[k] == e;
    }
    assert forall run' :: run' in b.runs[..n] ==> run' in b.runs;
  }

  /** The journal lets the run in, and its guards hold. */
  ghost predicate WillRun(b: Book, plan: Plan, direction: Direction, baseline: bool, reapply: bool) {
    var steps := plan.Steps(direction);
    && Admits(b.runs, plan, direction, reapply)
    && ((baseline && direction == Upgrade) || AllGuardsHold(steps, |steps|, b.data))
  }

  /** The book of a finished upgrade is the one before with a successful row and more events. */
  lemma FinishedOpened(before: Book, run: Run, baseline: bool, d: Data)
    ensures
      var row := run.(status := AppliedSuccess, baseline := baseline, direction := Upgrade, error := NoError);
      var finished := Finished(Opened(before, run).(data := d), AppliedSuccess, baseline, Upgrade, d);
      && finished == Book(before.runs + [row], finished.events, d)
      && forall e :: e in Opened(before, row).events ==> e in finished.events
  {
    var row := run.(status := AppliedSuccess, baseline := baseline, direction := Upgrade, error := NoError);
    assert Opened(before, run).runs[..|before.runs|] == before.runs;
    assert Opened(before, row).events == Opened(before, run).events;
  }

  lemma SuccessReplays(catalog: Catalog, row: Run, plan: Plan, d: Data)
    requires row.status == AppliedSuccess && catalog(row.checksum) == plan
    ensures Replayed(catalog, row, d) == if row.baseline then d else RunAll(plan.upgrade, d)
  {
  }

  /** How many actions on the database the first `n` steps take. */
  function Actions(steps: seq<Step>, n: nat): nat
    requires n <= |steps|
  {
    if n == 0 then 0 else Actions(steps, n - 1) + |steps[n - 1].statements| + 3
  }

  lemma {:induction false} ActionsGrow(steps: seq<Step>, m: nat, n: nat)
    requires m <= n <= |steps|
    ensures Actions(steps, m) <= Actions(steps, n)
    ensures m < n ==> Actions(steps, m) + |steps[m].statements| + 3 <= Actions(steps, n)
  {
    if m < n {
      ActionsGrow(steps, m, n - 1);
    }
  }

  /** Of a script that is cut off later, `k` actions have been drawn, and none of them failed. */
  ghost predicate Drawn(before: seq<Fault>, after: seq<Fault>, k: nat, ok: bool) {
    forall n: nat :: n >= k && CutAt(before, n, FailsAfter) ==> ok && CutAt(after, n - k, FailsAfter)
  }

  lemma DrawnJoin(a: seq<Fault>, b: seq<Fault>, c: seq<Fault>, j: nat, k: nat, ok: bool)
    requires Drawn(a, b, j, true) && Drawn(b, c, k, ok)
    ensures Drawn(a, c, j + k, ok)
    ensures !ok ==> forall l: nat :: l >= j + k ==> Drawn(a, c, l, false) && !CutAt(a, l, FailsAfter)
  {
    hide CutAt;
    forall n: nat | n >= j + k && CutAt(a, n, FailsAfter) ensures ok && CutAt(c, n - j - k, FailsAfter) {
      assert CutAt(b, n - j, FailsAfter);
    }
  }

  lemma DrawnAll(before: seq<Fault>, after: seq<Fault>, k: nat, ok: bool)
    requires Drawn(before, after, k, ok) && CutAt(before, k, FailsAfter)
    ensures ok && CutAt(after, 0, FailsAfter)
  {
  }

  lemma DrawnOne(before: seq<Fault>, after: seq<Fault>, ok: bool)
    requires Drawn(before, after, 1, ok)
    ensures forall n: nat :: n >= 1 && CutAt(before, n, FailsAfter) ==> ok && CutAt(after, n - 1, FailsAfter)
  {
  }

  lemma NoneDrawn(faults: seq<Fault>)
    ensures Drawn(faults, faults, 0, true)
  {
  }

  // ---------- the session ----------

  datatype Result = Ended(status: Status) | Unchanged | Failed

  class Session {
    ghost const catalog: Catalog
    ghost const origin: Data     // the user tables before the first run
    var durable: Book
    var working: Book
    var faults: seq<Fault>
    var freshId: nat
    ghost var lost: bool         // some commit took effect although its caller saw an error

    constructor (catalog: Catalog, data: Data, faults: seq<Fault>)
      ensures Valid() && durable.data == data && durable.runs == [] && !lost
    {
      this.catalog, origin := catalog, data;
      durable, working := Book([], [], data), Book([], [], data);
      this.faults, freshId, lost := faults, 0, false;
    }

    ghost predicate Valid()
      reads this
    {
      Consistent(catalog, origin, lost, durable)
    }

    method Draw() returns (fault: Fault)
      modifies this`faults
      ensures old(faults) == [] ==> fault == NoFault && faults == []
      ensures old(faults) != [] ==> fault == old(faults)[0] && faults == old(faults)[1..]
    {
      if faults == [] { return NoFault; }
      fault, faults := faults[0], faults[1..];
    }

    method Probe() returns (r: Signal)
      modifies this`faults
      ensures old(faults) == [] ==> r.Ok? && faults == []
      ensures Drawn(old(faults), faults, 1, r.Ok?)
    {
      var fault := Draw();
      r := if fault.NoFault? then Ok else if fault.FailsBefore? || fault.FailsAfter? then Raised(OtherError) else Crashed;
    }

    /** A statement, DDL included: its effect stays in the open transaction. */
    method Apply(statement: Statement) returns (r: Signal)
      modifies this`faults, this`working
      ensures r.Ok? ==> working == old(working).(data := statement.effect(old(working).data))
      ensures old(faults) == [] ==> r.Ok? && faults == []
      ensures Drawn(old(faults), faults, 1, r.Ok?)
    {
      r := Probe();
      if r.Ok? {
        working := working.(data := statement.effect(working.data));
      }
    }

    method Write(b: Book) returns (r: Signal)
      modifies this`faults, this`working
      ensures r.Ok? ==> working == b
      ensures old(faults) == [] ==> r.Ok? && faults == []
      ensures Drawn(old(faults), faults, 1, r.Ok?)
    {
      r := Probe();
      if r.Ok? {
        working := b;
      }
    }

    method RunGuards(guards: seq<Data -> bool>) returns (r: Signal)
      modifies this`faults
      ensures r.Ok? ==> Passes(guards, working.data)
      ensures old(faults) == [] ==> faults == [] && !r.Crashed? && (Passes(guards, working.data) ==> r.Ok?)
      ensures Passes(guards, working.data) ==> Drawn(old(faults), faults, 1, r.Ok?)
    {
      r := Probe();
      if r.Ok? && !Passes(guards, working.data) {
        r := Raised(OtherError);
      }
    }

    method Commit() returns (r: Signal)
      requires Valid() && Consistent(catalog, origin, lost, working)
      modifies this`faults, this`durable, this`lost
      ensures Valid() && (durable == old(durable) || durable == working)
      ensures r.Ok? ==> durable == working && lost == old(lost)
      ensures r.Raised? && !lost ==> durable == old(durable)
      ensures old(lost) ==> lost
      ensures old(faults) == [] ==> r.Ok? && faults == []
      ensures CutAt(old(faults), 0, FailsAfter) ==> r.Raised? && durable == working && faults == []
    {
      var fault := Draw();
      match fault
      case NoFault => durable, r := working, Ok;
      case FailsBefore => r := Raised(OtherError);
      case FailsAfter => durable, lost, r := working, true, Raised(OtherError);
      case DiesBefore => r := Crashed;
      case DiesAfter => durable, r := working, Crashed;
    }

    /** The statements of one step, in order. */
    method ApplyStep(step: Step) returns (r: Signal)
      modifies this`faults, this`working
      ensures r.Ok? ==> working == old(working).(data := RunStep(step, old(working).data))
      ensures r.Ok? ==> GuardsHold(step, old(working).data)
      ensures old(faults) == [] ==> faults == [] && !r.Crashed? && (GuardsHold(step, old(working).data) ==> r.Ok?)
      ensures GuardsHold(step, old(working).data) ==> Drawn(old(faults), faults, |step.statements| + 3, r.Ok?)
    {
      hide CutAt, Drawn, Passes;
      ghost var begun := faults;
      NoneDrawn(faults);
      r := RunGuards(step.before);
      if GuardsHold(step, old(working).data) {
        DrawnJoin(begun, begun, faults, 0, 1, r.Ok?);
      }
      if !r.Ok? { return; }
      ghost var rest := faults;
      for i := 0 to |step.statements|
        invariant working == old(working).(data := Prefix(step.statements, i, old(working).data))
        invariant old(faults) == [] ==> faults == []
        invariant GuardsHold(step, old(working).data) ==> Drawn(begun, faults, i + 1, true)
      {
        rest := faults;
        r := Apply(step.statements[i]);
        if GuardsHold(step, old(working).data) {
          DrawnJoin(begun, rest, faults, i + 1, 1, r.Ok?);
        }
        if !r.Ok? { return; }
      }
      rest := faults;
      r := RunGuards(step.after);
      if GuardsHold(step, old(working).data) {
        DrawnJoin(begun, rest, faults, |step.statements| + 1, 1, r.Ok?);
      }
      if !r.Ok? { return; }
      // Recording the identity edges.
      rest := faults;
      r := Probe();
      if GuardsHold(step, old(working).data) {
        DrawnJoin(begun, rest, faults, |step.statements| + 2, 1, r.Ok?);
      }
    }

    method RunPlan(steps: seq<Step>) returns (r: Signal)
      modifies this`faults, this`working
      ensures r.Ok? ==> working == old(working).(data := RunAll(steps, old(working).data))
      ensures r.Ok? ==> AllGuardsHold(steps, |steps|, old(working).data)
      ensures old(faults) == [] ==> faults == [] && !r.Crashed? && (AllGuardsHold(steps, |steps|, old(working).data) ==> r.Ok?)
      ensures AllGuardsHold(steps, |steps|, old(working).data) ==> Drawn(old(faults), faults, Actions(steps, |steps|), r.Ok?)
    {
      hide CutAt, Drawn, Passes, AllGuardsHold, GuardsHold, RunStep;
      ghost var begun, d, sure := faults, working.data, AllGuardsHold(steps, |steps|, working.data);
      NoneDrawn(faults);
      NoGuardsYet(steps, d);
      for i := 0 to |steps|
        invariant working == old(working).(data := RunSteps(steps, i, d))
        invariant AllGuardsHold(steps, i, d) && (old(faults) == [] ==> faults == [])
        invariant sure ==> Drawn(begun, faults, Actions(steps, i), true)
      {
        ghost var rest := faults;
        ActionsGrow(steps, i, |steps|);
        NextGuards(steps, i, d);
        r := ApplyStep(steps[i]);
        if sure {
          DrawnJoin(begun, rest, faults, Actions(steps, i), |steps[i].statements| + 3, r.Ok?);
        }
        if !r.Ok? { return; }
      }
      r := Ok;
    }

    lemma NoGuardsYet(steps: seq<Step>, d: Data)
      ensures AllGuardsHold(steps, 0, d)
    {
    }

    lemma NextGuards(steps: seq<Step>, i: nat, d: Data)
      requires i < |steps| && AllGuardsHold(steps, i, d)
      ensures AllGuardsHold(steps, |steps|, d) ==> GuardsHold(steps[i], RunSteps(steps, i, d))
      ensures GuardsHold(steps[i], RunSteps(steps, i, d)) ==> AllGuardsHold(steps, i + 1, d)
    {
    }

    /** What an upgrade writes before its commit; `started` once its journal row is there. */
    method Fill(plan: Plan, run: Run, baseline: bool) returns (r: Signal, started: bool)
      modifies this`faults, this`working
      ensures r.Ok? ==>
        && started && (baseline || AllGuardsHold(plan.upgrade, |plan.upgrade|, old(working).data))
        && working == Filled(old(working), plan, run, baseline)
      ensures old(faults) == [] ==>
        && faults == [] && started && !r.Crashed?
        && (baseline || AllGuardsHold(plan.upgrade, |plan.upgrade|, old(working).data) ==> r.Ok?)
      ensures !baseline && AllGuardsHold(plan.upgrade, |plan.upgrade|, old(working).data) ==>
        Drawn(old(faults), faults, Actions(plan.upgrade, |plan.upgrade|) + 4, r.Ok?)
    {
      hide RunAll, Opened, Finished, CutAt, Drawn, AllGuardsHold, Actions;
      started := false;
      ghost var before, begun, rest := working, faults, faults;
      ghost var sure, n := !baseline && AllGuardsHold(plan.upgrade, |plan.upgrade|, before.data), Actions(plan.upgrade, |plan.upgrade|);
      OpenedRuns(before, run);
      NoneDrawn(faults);
      r := Write(Opened(working, run));
      DrawnJoin(begun, rest, faults, 0, 1, r.Ok?);
      if !r.Ok? { return; }
      started, rest := true, faults;
      r := Probe();
      DrawnJoin(begun, rest, faults, 1, 1, r.Ok?);
      if !r.Ok? { return; }
      rest := faults;
      if !baseline {
        r := RunPlan(plan.upgrade);
        if sure {
          DrawnJoin(begun, rest, faults, 2, n, r.Ok?);
        }
        if !r.Ok? { return; }
        // Recording the migration's own success.
        rest := faults;
        r := Probe();
        if sure {
          DrawnJoin(begun, rest, faults, n + 2, 1, r.Ok?);
        }
        if !r.Ok? { return; }
      }
      rest := faults;
      r := Write(Finished(working, AppliedSuccess, baseline, Upgrade, working.data));
      if sure {
        DrawnJoin(begun, rest, faults, n + 3, 1, r.Ok?);
      }
    }

    /** The book that the transaction of an upgrade commits. */
    ghost function Filled(before: Book, plan: Plan, run: Run, baseline: bool): Book {
      var d := if baseline then before.data else RunAll(plan.upgrade, before.data);
      Finished(Opened(before, run).(data := d), AppliedSuccess, baseline, Upgrade, d)
    }

    /** The transaction of an upgrade; `started` once its journal row is in it. */
    method RunForward(plan: Plan, epoch: nat, baseline: bool) returns (r: Signal, started: bool)
      requires Valid() && catalog(plan.checksum) == plan && working == durable && epoch == |durable.runs| + 1
      requires MayOpen(durable.runs, plan.checksum, true)
      modifies this
      ensures Valid() && (old(lost) ==> lost)
      ensures r.Ok? ==> lost == old(lost) && durable != old(durable)
      ensures r.Raised? && !lost ==> durable == old(durable)
      ensures durable != old(durable) ==>
        && Extends(old(durable), durable, plan, baseline)
        && durable.data == if baseline then old(durable).data else RunAll(plan.upgrade, old(durable).data)
      ensures durable != old(durable) ==> baseline || AllGuardsHold(plan.upgrade, |plan.upgrade|, old(durable).data)
      ensures old(faults) == [] ==>
        && faults == [] && started && !r.Crashed? && (!r.Ok? ==> durable == old(durable))
        && (baseline || AllGuardsHold(plan.upgrade, |plan.upgrade|, old(durable).data) ==> r.Ok?)
      ensures
        var n := Actions(plan.upgrade, |plan.upgrade|) + 4;
        CutAt(old(faults), n, FailsAfter) && !baseline && AllGuardsHold(plan.upgrade, |plan.upgrade|, old(durable).data) ==>
          r.Raised? && started && durable != old(durable) && faults == []
    {
      hide Consistent, RunAll, Opened, Finished, CutAt, Drawn, AllGuardsHold, Actions;
      var before := durable;
      ghost var begun, n := faults, Actions(plan.upgrade, |plan.upgrade|) + 4;
      var run := OpenRun(before, plan, epoch, Applying, NoError, baseline, freshId);
      freshId := freshId + 1;
      r, started := Fill(plan, run, baseline);
      if !baseline && AllGuardsHold(plan.upgrade, |plan.upgrade|, before.data) && CutAt(begun, n, FailsAfter) {
        DrawnAll(begun, faults, n, r.Ok?);
      }
      if !r.Ok? { return; }
      ForwardKeeps(before, plan, run, baseline);
      FilledRuns(before, plan, run, baseline);
      r := Commit();
    }

    lemma FilledRuns(before: Book, plan: Plan, run: Run, baseline: bool)
      requires run.checksum == plan.checksum
      ensures Extends(before, Filled(before, plan, run, baseline), plan, baseline)
      ensures Filled(before, plan, run, baseline).data == if baseline then before.data else RunAll(plan.upgrade, before.data)
    {
      hide RunAll, Opened, Finished;
      var d := if baseline then before.data else RunAll(plan.upgrade, before.data);
      OpenedRuns(before, run);
      FinishedRuns(Opened(before, run).(data := d), AppliedSuccess, baseline, Upgrade, d);
    }

    /** The transaction of a rollback. */
    method RunBackward(plan: Plan) returns (r: Signal)
      requires Valid() && catalog(plan.checksum) == plan && working == durable && durable.runs != []
      requires var last := durable.runs[|durable.runs| - 1];
        last.status == AppliedSuccess && !last.baseline && last.checksum == plan.checksum
      modifies this
      ensures Valid() && (old(lost) ==> lost)
      ensures r.Ok? ==> lost == old(lost) && durable != old(durable)
      ensures r.Raised? && !lost ==> durable == old(durable)
      ensures durable != old(durable) ==>
        && Reverses(old(durable), durable)
        && durable.data == RunAll(plan.rollback, old(durable).data)
      ensures durable != old(durable) ==> AllGuardsHold(plan.rollback, |plan.rollback|, old(durable).data)
      ensures old(faults) == [] ==>
        && faults == [] && !r.Crashed? && (!r.Ok? ==> durable == old(durable))
        && (AllGuardsHold(plan.rollback, |plan.rollback|, old(durable).data) ==> r.Ok?)
    {
      hide Consistent, RunAll, Finished;
      var before := durable;
      :- Probe();
      :- RunPlan(plan.rollback);
      :- Probe();
      FinishedRuns(working, RolledBack, false, Rollback, working.data);
      :- Write(Finished(working, RolledBack, false, Rollback, working.data));
      ReverseKeepsAll(before, plan);
      r := Commit();
    }

    /** The transaction of one run. */
    method Attempt(plan: Plan, direction: Direction, baseline: bool, reapply: bool)
      returns (r: Signal, result: Result, started: bool)
      requires Valid() && catalog(plan.checksum) == plan
      modifies this
      ensures Valid() && (old(lost) ==> lost)
      ensures durable.data == old(durable).data || durable.data == RunAll(plan.Steps(direction), old(durable).data)
      ensures r.Raised? && !lost ==> durable == old(durable)
      ensures r.Ok? ==> lost == old(lost) && Finishes(old(durable), durable, plan, direction, baseline, result)
      ensures Grows(old(durable).runs, durable.runs)
      ensures started ==> direction == Upgrade && MayOpen(old(durable).runs, plan.checksum, reapply)
      ensures durable != old(durable) ==>
        if direction == Upgrade then MayOpen(old(durable).runs, plan.checksum, reapply) else MayReverse(old(durable).runs, plan.checksum)
      ensures r.Ok? && result == Unchanged ==> direction == Upgrade && Stands(old(durable).runs, plan.checksum)
      ensures old(faults) == [] ==>
        && faults == [] && !r.Crashed? && (!r.Ok? ==> durable == old(durable))
        && (direction == Upgrade && MayOpen(old(durable).runs, plan.checksum, reapply) ==> started)
        && (direction == Upgrade && Stands(old(durable).runs, plan.checksum) ==> r.Ok? && result == Unchanged)
      ensures started && durable != old(durable) ==>
        Extends(old(durable), durable, plan, baseline) && (!baseline ==> durable.data == RunAll(plan.upgrade, old(durable).data))
      ensures durable.data != old(durable).data ==>
        AllGuardsHold(plan.Steps(direction), |plan.Steps(direction)|, old(durable).data)
      ensures old(faults) == [] && WillRun(old(durable), plan, direction, baseline, reapply) ==>
        r.Ok? && result == Ended(if direction == Rollback then RolledBack else AppliedSuccess)
      ensures
        var n := Actions(plan.upgrade, |plan.upgrade|) + 5;
        direction == Upgrade && !baseline && WillRun(old(durable), plan, Upgrade, false, reapply) && CutAt(old(faults), n, FailsAfter) ==>
          r.Raised? && started && durable != old(durable) && faults == []
    {
      hide Consistent, RunAll, LatestRun, AllGuardsHold, Drawn, CutAt, Actions;
      working, started, result := durable, false, Failed;
      ghost var begun := faults;
      // Creating the journal tables and reading them.
      r := Probe();
      DrawnOne(begun, faults, r.Ok?);
      if !r.Ok? { return; }
      LatestRow();
      EnterMeans(durable.runs, plan.checksum, direction, reapply);
      match Enter(LatestRun(durable.runs), plan.checksum, direction, reapply) {
        case Refuse =>
          r := Raised(OtherError);
        case Nothing =>
          r, result := Ok, Unchanged;
        case Forward(epoch) =>
          r, started := RunForward(plan, epoch, baseline);
          if r.Ok? {
            result := Ended(AppliedSuccess);
          }
        case Reverse(epoch) =>
          r := RunBackward(plan);
          if r.Ok? {
            result := Ended(RolledBack);
          }
      }
    }

    lemma LatestRow()
      requires Valid()
      ensures LatestRun(durable.runs) == if durable.runs == [] then None else Some(durable.runs[|durable.runs| - 1])
      ensures durable.runs != [] ==> durable.runs[|durable.runs| - 1].epoch == |durable.runs|
      ensures Numbered(durable.runs) && Settled(durable.runs)
    {
      LatestIsLast(durable.runs);
    }

    lemma ForwardKeeps(before: Book, plan: Plan, run: Run, baseline: bool)
      requires Consistent(catalog, origin, lost, before) && catalog(plan.checksum) == plan
      requires run.checksum == plan.checksum && run.epoch == |before.runs| + 1
      requires MayOpen(before.runs, plan.checksum, true)
      ensures Consistent(catalog, origin, lost, Filled(before, plan, run, baseline))
    {
      hide Consistent, RunAll, Opened, Finished;
      var d := if baseline then before.data else RunAll(plan.upgrade, before.data);
      OpenedRuns(before, run);
      var finished := Finished(Opened(before, run).(data := d), AppliedSuccess, baseline, Upgrade, d);
      var row := run.(status := AppliedSuccess, baseline := baseline, direction := Upgrade, error := NoError);
      FinishedOpened(before, run, baseline, d);
      SuccessReplays(catalog, row, plan, before.data);
      OpenKeeps(catalog, origin, lost, before, row, finished.events, d);
    }

    lemma ReverseKeepsAll(before: Book, plan: Plan)
      requires Consistent(catalog, origin, lost, before) && catalog(plan.checksum) == plan
      requires before.runs != []
      requires var last := before.runs[|before.runs| - 1];
        last.status == AppliedSuccess && !last.baseline && last.checksum == plan.checksum
      ensures
        var d := RunAll(plan.rollback, before.data);
        Consistent(catalog, origin, lost, Finished(before.(data := d), RolledBack, false, Rollback, d))
    {
      var d := RunAll(plan.rollback, before.data);
      var finished := Finished(before.(data := d), RolledBack, false, Rollback, d);
      var n := |before.runs| - 1;
      ReverseKeeps(catalog, origin, lost, before, finished.runs[n], finished.events);
    }

    lemma FailureKeeps(run: Run)
      requires Valid() && run.status == FailedRetryable && run.epoch == |durable.runs| + 1
      requires !lost && durable.runs != [] ==> durable.runs[|durable.runs| - 1].status != AppliedSuccess
      requires durable.runs != [] ==> run.checksum == durable.runs[|durable.runs| - 1].checksum
      ensures Consistent(catalog, origin, lost, Opened(durable, run))
    {
      OpenKeeps(catalog, origin, lost, durable, run, Opened(durable, run).events, durable.data);
    }

    /** The row of a failed upgrade, in a transaction of its own. */
    method PersistFailure(plan: Plan, baseline: bool, ghost reapply: bool) returns (r: Signal)
      requires Valid()
      requires !lost && durable.runs != [] ==> durable.runs[|durable.runs| - 1].status != AppliedSuccess
      requires durable.runs != [] ==> durable.runs[|durable.runs| - 1].checksum == plan.checksum
      // The reapply event is written where reapply was asked for, which is wherever it is due.
      requires durable.runs != [] && durable.runs[|durable.runs| - 1].status == RolledBack ==> reapply
      modifies this
      ensures Valid() && (old(lost) ==> lost)
      ensures durable.data == old(durable).data
      ensures durable == old(durable) || Fails(old(durable), durable, plan)
      ensures r.Ok? ==> Fails(old(durable), durable, plan)
      ensures old(faults) == [] ==> r.Ok? && faults == []
    {
      hide Consistent, Opened, LatestRun;
      working := durable;
      LatestRow();
      var existing := LatestRun(durable.runs);
      var epoch := if existing.Some? then existing.value.epoch + 1 else 1;
      var run := OpenRun(durable, plan, epoch, FailedRetryable, NoError, baseline, freshId);
      freshId := freshId + 1;
      OpenedRuns(durable, run);
      FailureKeeps(run);
      :- Write(Opened(durable, run));
      r := Commit();
    }

    /** The row of a failure, over what the run found or over the success it left without knowing. */
    method FailOver(plan: Plan, baseline: bool, ghost reapply: bool, ghost b: Book)
      requires Valid() && MayOpen(b.runs, plan.checksum, reapply) && Grows(b.runs, durable.runs)
      requires durable == b || (lost && Extends(b, durable, plan, baseline))
      modifies this
      ensures Valid() && (old(lost) ==> lost) && durable.data == old(durable).data && Grows(b.runs, durable.runs)
      ensures old(faults) == [] ==>
        && faults == [] && durable != old(durable) && |durable.runs| == |old(durable).runs| + 1
        && durable.runs[|durable.runs| - 1].status == FailedRetryable
      ensures
        var done := old(durable) != b && !baseline && old(durable).data == RunAll(plan.upgrade, b.data);
        old(faults) == [] && done ==> Buries(b, durable, plan)
    {
      hide Consistent, RunAll, Grows, Buries, MayOpen, Extends, Fails;
      ghost var middle := durable;
      FailureMayFollow(b, middle, plan, baseline, reapply);
      var _ := PersistFailure(plan, baseline, reapply);
      if durable != middle {
        FailsAdds(middle, durable, plan);
        NowBuried(b, middle, durable, plan, baseline);
        FailsGrows(middle, durable, plan);
        GrowsJoin(b.runs, middle.runs, durable.runs);
      }
      if Fails(middle, durable, plan) {
        FailsAdds(middle, durable, plan);
      }
    }

    /** A run of the engine: all of the plan and its journal row, or none of it and the row of a failure. */
    method Execute(plan: Plan, direction: Direction, baseline: bool, reapply: bool)
      returns (r: Signal, result: Result)
      requires Valid() && catalog(plan.checksum) == plan
      modifies this
      ensures Valid() && (old(lost) ==> lost)
      ensures durable.data == old(durable).data || durable.data == RunAll(plan.Steps(direction), old(durable).data)
      ensures r.Raised? && !lost ==> durable.data == old(durable).data
      ensures r.Ok? ==> lost == old(lost) && Finishes(old(durable), durable, plan, direction, baseline, result)
      ensures Grows(old(durable).runs, durable.runs)
      ensures durable != old(durable) ==> Admits(old(durable).runs, plan, direction, reapply)
      ensures old(faults) == [] && direction == Upgrade ==>
        && (durable != old(durable) <==> Admits(old(durable).runs, plan, Upgrade, reapply))
        && (durable != old(durable) ==> |durable.runs| == |old(durable).runs| + 1)
        && (r.Ok? && result == Unchanged <==> WellFormed(plan, Upgrade, reapply) && Stands(old(durable).runs, plan.checksum))
      ensures old(faults) == [] && Admits(old(durable).runs, plan, Upgrade, reapply) && direction == Upgrade ==>
        if WillRun(old(durable), plan, Upgrade, baseline, reapply) then r.Ok?
        else r.Raised? && durable.data == old(durable).data && durable.runs[|durable.runs| - 1].status == FailedRetryable
      ensures old(faults) == [] && direction == Rollback ==>
        (durable != old(durable) <==> WillRun(old(durable), plan, Rollback, baseline, reapply))
      ensures durable.data != old(durable).data ==>
        AllGuardsHold(plan.Steps(direction), |plan.Steps(direction)|, old(durable).data)
      ensures old(faults) == [] && WillRun(old(durable), plan, direction, baseline, reapply) ==>
        r.Ok? && result == Ended(if direction == Rollback then RolledBack else AppliedSuccess)
      ensures
        var n := Actions(plan.upgrade, |plan.upgrade|) + 5;
        direction == Upgrade && !baseline && WillRun(old(durable), plan, Upgrade, false, reapply) && CutAt(old(faults), n, FailsAfter) ==>
          r.Raised? && faults == [] && Buries(old(durable), durable, plan)
    {
      NothingGrows(durable.runs);
      if !UniqueIds(plan.Steps(direction)) || (direction == Rollback && (reapply || plan.irreversible)) {
        return Raised(OtherError), Failed;
      }
      hide Consistent, RunAll, LatestRun, AllGuardsHold, CutAt, Actions, Finishes, UniqueIds, Grows, Buries, MayOpen,
        MayReverse, Stands, Extends;
      var started;
      r, result, started := Attempt(plan, direction, baseline, reapply);
      FinishesPassed(old(durable), durable, plan, direction, baseline, result);
      if r.Raised? && started {
        FailOver(plan, baseline, reapply, old(durable));
      }
    }

    /** Reconciliation: the status of the last row, and that a retry is allowed exactly where its plan's upgrade would get in. */
    method Inspect() returns (r: Signal, shown: Option<(Status, bool)>)
      requires Valid()
      modifies this`faults
      ensures r.Ok? ==> (shown.None? <==> durable.runs == [])
      ensures shown.Some? ==>
        && durable.runs != []
        && var last := durable.runs[|durable.runs| - 1];
        && shown.value.0 == last.status && last.status != Applying
        && (shown.value.1 <==> MayOpen(durable.runs, last.checksum, false))
      ensures old(faults) == [] ==> r.Ok?
    {
      shown := None;
      r := Probe();
      LatestRow();
      var existing := LatestRun(durable.runs);
      if r.Ok? && existing.Some? {
        assert existing.value in durable.runs;
        shown := Some((existing.value.status, existing.value.status == FailedRetryable));
      }
    }

    /**
     * Any commands, against any environment. A process that dies leaves what was committed: never a row that
     * says APPLYING, so the abandon decision has nothing to act on, and unless a lost reply has buried a
     * success under later rows, a latest row that tells what the user tables are.
     */
    method Operate(commands: seq<Command>)
      requires Valid() && forall c :: c in commands ==> catalog(c.plan.checksum) == c.plan
      modifies this
      ensures Valid() && Grows(old(durable).runs, durable.runs)
      ensures durable.data == Replay(catalog, durable.runs, origin)
      ensures forall run :: run in durable.runs ==> run.status in {AppliedSuccess, FailedRetryable, RolledBack}
      ensures OneChecksum(durable.runs)
      ensures !lost ==> SuccessIsLast(durable.runs)
      ensures NoBuriedSuccess(durable.runs) && AllInverse(catalog, durable.runs, origin) ==> Truthful(catalog, durable, origin)
    {
      hide Consistent;
      for i := 0 to |commands|
        invariant Valid() && Grows(old(durable).runs, durable.runs)
      {
        ghost var before := durable.runs;
        var c := commands[i];
        assert c in commands;
        var signal, result := Execute(c.plan, c.direction, c.baseline, c.reapply);
        GrowsJoin(old(durable).runs, before, durable.runs);
      }
      ValidMeans();
    }

    lemma ValidMeans()
      requires Valid()
      ensures durable.data == Replay(catalog, durable.runs, origin)
      ensures forall run :: run in durable.runs ==> run.status in {AppliedSuccess, FailedRetryable, RolledBack}
      ensures OneChecksum(durable.runs)
      ensures !lost ==> SuccessIsLast(durable.runs)
      ensures NoBuriedSuccess(durable.runs) && AllInverse(catalog, durable.runs, origin) ==> Truthful(catalog, durable, origin)
    {
      hide Truthful, AllInverse, Replay;
      if NoBuriedSuccess(durable.runs) && AllInverse(catalog, durable.runs, origin) {
        LatestRowIsTruthful(catalog, origin, lost, durable);
      }
    }
  }

  datatype Command = Command(plan: Plan, direction: Direction, baseline: bool, reapply: bool)

  // ---------- what the latest row says ----------

  ghost predicate Upgraded(runs: seq<Run>) {
    runs != [] && runs[|runs| - 1].status == AppliedSuccess && !runs[|runs| - 1].baseline
  }

  /** The rollback steps undo the upgrade steps on these user tables. */
  ghost predicate Inverse(plan: Plan, d: Data) {
    RunAll(plan.rollback, RunAll(plan.upgrade, d)) == d
  }

  ghost predicate AllInverse(catalog: Catalog, runs: seq<Run>, d: Data) {
    forall run :: run in runs ==> Inverse(catalog(run.checksum), d)
  }

  /** The user tables are upgraded exactly when the latest row is a success that is not a baseline. */
  ghost predicate Truthful(catalog: Catalog, b: Book, origin: Data) {
    b.data == if Upgraded(b.runs) then RunAll(catalog(b.runs[|b.runs| - 1].checksum).upgrade, origin) else origin
  }

  lemma {:induction false} WithoutSuccess(catalog: Catalog, runs: seq<Run>, origin: Data)
    requires Settled(runs) && AllInverse(catalog, runs, origin)
    requires forall run :: run in runs && run.status == AppliedSuccess ==> run.baseline
    ensures Replay(catalog, runs, origin) == origin
  {
    if runs != [] {
      var rest := runs[..|runs| - 1];
      assert forall run :: run in rest ==> run in runs;
      assert runs[|runs| - 1] in runs;
      WithoutSuccess(catalog, rest, origin);
    }
  }

  /** Unless a success other than a baseline lies under later rows, the latest row tells what the user tables are. */
  lemma LatestRowIsTruthful(catalog: Catalog, origin: Data, lost: bool, b: Book)
    requires Consistent(catalog, origin, lost, b) && AllInverse(catalog, b.runs, origin)
    requires NoBuriedSuccess(b.runs)
    ensures Truthful(catalog, b, origin)
  {
    if b.runs != [] {
      var n := |b.runs| - 1;
      var rest, last := b.runs[..n], b.runs[n];
      forall run | run in rest ensures run in b.runs && (run.status == AppliedSuccess ==> run.baseline) {
        var i :| 0 <= i < |rest| && rest[i] == run;
        assert b.runs[i] == run;
      }
      assert last in b.runs;
      WithoutSuccess(catalog, rest, origin);
    }
  }

  // ---------- exactly when it does ----------

  /** Whatever the plans and the user tables, a journal with these rows is truthful if rolling back undoes. */
  ghost predicate RowsTell(runs: seq<Run>) {
    forall catalog: Catalog, origin: Data, b: Book ::
      b.runs == runs && Consistent(catalog, origin, true, b) && AllInverse(catalog, runs, origin) ==> Truthful(catalog, b, origin)
  }

  /** User tables that can count. */
  ghost predicate Counts(at: nat -> Data, number: Data -> nat) {
    forall k :: number(at(k)) == k
  }

  function SingleStep(effect: Data -> Data): Step {
    Step("", false, [Statement("", Update, true, effect, _ => 1, None)], [], [])
  }

  /** The plan that adds one, and takes it away again. */
  function CountingPlan(checksum: string, at: nat -> Data, number: Data -> nat): Plan {
    Plan(checksum, false,
         [SingleStep(d => at(number(d) + 1))],
         [SingleStep(d => at(if number(d) == 0 then 0 else number(d) - 1))])
  }

  lemma RunSingle(effect: Data -> Data, d: Data)
    ensures RunAll([SingleStep(effect)], d) == effect(d)
  {
    assert RunSteps([SingleStep(effect)], 0, d) == d;
    assert Prefix(SingleStep(effect).statements, 0, d) == d;
  }

  lemma CountingRuns(checksum: string, at: nat -> Data, number: Data -> nat, k: nat)
    requires Counts(at, number)
    ensures RunAll(CountingPlan(checksum, at, number).upgrade, at(k)) == at(k + 1)
    ensures RunAll(CountingPlan(checksum, at, number).rollback, at(k + 1)) == at(k)
  {
    RunSingle(d => at(number(d) + 1), at(k));
    RunSingle(d => at(if number(d) == 0 then 0 else number(d) - 1), at(k + 1));
  }

  ghost function Successes(runs: seq<Run>): nat {
    if runs == [] then 0 else Successes(runs[..|runs| - 1]) + if Upgraded(runs) then 1 else 0
  }

  /** The tables count the successes. */
  lemma {:induction false} ReplayCounts(catalog: Catalog, runs: seq<Run>, at: nat -> Data, number: Data -> nat)
    requires Counts(at, number) && Settled(runs)
    requires forall checksum :: catalog(checksum) == CountingPlan(checksum, at, number)
    ensures Replay(catalog, runs, at(0)) == at(Successes(runs))
  {
    hide RunAll;
    if runs != [] {
      var rest, last := runs[..|runs| - 1], runs[|runs| - 1];
      assert forall run :: run in rest ==> run in runs;
      assert last in runs;
      ReplayCounts(catalog, rest, at, number);
      CountingRuns(last.checksum, at, number, Successes(rest));
    }
  }

  lemma {:induction false} BuriedCounts(runs: seq<Run>, i: nat)
    requires i < |runs| && runs[i].status == AppliedSuccess && !runs[i].baseline
    ensures Successes(runs) >= 1
  {
    if i < |runs| - 1 {
      BuriedCounts(runs[..|runs| - 1], i);
    }
  }

  /** A journal of counting plans, with these rows. */
  ghost function CountingBook(runs: seq<Run>, at: nat -> Data, number: Data -> nat): Book {
    Book(runs, seq(|runs|, i requires 0 <= i < |runs| => Event(Reapply(i + 1), i + 2)),
         Replay(checksum => CountingPlan(checksum, at, number), runs, at(0)))
  }

  lemma CountingIsConsistent(runs: seq<Run>, at: nat -> Data, number: Data -> nat)
    requires Numbered(runs) && OneChecksum(runs) && Settled(runs) && Counts(at, number)
    ensures
      var catalog := checksum => CountingPlan(checksum, at, number);
      Consistent(catalog, at(0), true, CountingBook(runs, at, number)) && AllInverse(catalog, runs, at(0))
  {
    hide RunAll;
    var catalog, b := checksum => CountingPlan(checksum, at, number), CountingBook(runs, at, number);
    forall i | 0 <= i < |runs| - 1 && runs[i].status == RolledBack ensures Event(Reapply(i + 1), i + 2) in b.events {
      assert b.events[i] == Event(Reapply(i + 1), i + 2);
    }
    forall run | run in runs ensures Inverse(catalog(run.checksum), at(0)) {
      CountingRuns(run.checksum, at, number, 0);
    }
  }

  /**
   * The rows alone decide whether the journal can be trusted, over all plans and user tables: exactly when they
   * bury no success but a baseline.
   */
  lemma RowsTellIff(runs: seq<Run>, at: nat -> Data, number: Data -> nat)
    requires Numbered(runs) && OneChecksum(runs) && Settled(runs) && Counts(at, number)
    ensures RowsTell(runs) <==> NoBuriedSuccess(runs)
  {
    hide Consistent, AllInverse, Counts, Numbered, OneChecksum, Settled;
    if NoBuriedSuccess(runs) {
      forall catalog: Catalog, origin: Data, b: Book |
        b.runs == runs && Consistent(catalog, origin, true, b) && AllInverse(catalog, runs, origin)
        ensures Truthful(catalog, b, origin)
      {
        LatestRowIsTruthful(catalog, origin, true, b);
      }
    } else {
      var i :| 0 <= i < |runs| - 1 && runs[i].status == AppliedSuccess && !runs[i].baseline;
      BuriedMisleads(runs, i, at, number);
    }
  }

  /** The failing input: tables that count how often they were upgraded. */
  lemma BuriedMisleads(runs: seq<Run>, i: nat, at: nat -> Data, number: Data -> nat)
    requires Numbered(runs) && OneChecksum(runs) && Settled(runs) && Counts(at, number)
    requires i < |runs| - 1 && runs[i].status == AppliedSuccess && !runs[i].baseline
    ensures
      var catalog, b := checksum => CountingPlan(checksum, at, number), CountingBook(runs, at, number);
      && Consistent(catalog, at(0), true, b) && AllInverse(catalog, runs, at(0))
      && b.data == at(Successes(runs)) && !Truthful(catalog, b, at(0))
  {
    hide RunAll, Consistent, AllInverse, Numbered, Settled;
    var catalog, b := checksum => CountingPlan(checksum, at, number), CountingBook(runs, at, number);
    CountingIsConsistent(runs, at, number);
    ReplayCounts(catalog, runs, at, number);
    BuriedCounts(runs[..|runs| - 1], i);
    CountingRuns(runs[|runs| - 1].checksum, at, number, 0);
    assert number(at(Successes(runs))) == Successes(runs) && number(at(0)) == 0 && number(at(1)) == 1;
  }

  /** Between a rollback and any later row stands the event of an explicit reapply. */
  lemma ReapplyBetween(catalog: Catalog, origin: Data, lost: bool, b: Book, i: nat, j: nat)
    requires Consistent(catalog, origin, lost, b) && i < j < |b.runs| && b.runs[i].status == RolledBack
    ensures exists e :: e in b.events && e.kind == Reapply(b.runs[i].epoch) && b.runs[i].epoch < e.epoch <= b.runs[j].epoch
  {
    assert Event(Reapply(i + 1), i + 2) in b.events;
  }

  /** The row of a failure, over what the database then holds. */
  function FailureRow(b: Book, plan: Plan, runId: nat): Book {
    Opened(b, OpenRun(b, plan, |b.runs| + 1, FailedRetryable, NoError, false, runId))
  }

  /**
   * A commit whose reply is lost: the success is durable, the caller sees an error and adds the row of a
   * failure over it. The latest row then says "retryable" of upgraded tables, and the next upgrade is let
   * in. The journal stays truthful exactly when the upgrade changes nothing.
   */
  lemma LostReplyMisleads(catalog: Catalog, origin: Data, b: Book, plan: Plan, run: Run, runId: nat, reapply: bool)
    requires Consistent(catalog, origin, false, b) && AllInverse(catalog, b.runs, origin)
    requires catalog(plan.checksum) == plan
    requires run == OpenRun(b, plan, |b.runs| + 1, Applying, NoError, false, runId)
    requires MayOpen(b.runs, plan.checksum, reapply)
    ensures
      var d := RunAll(plan.upgrade, b.data);
      var committed := Finished(Opened(b, run).(data := d), AppliedSuccess, false, Upgrade, d);
      var after := FailureRow(committed, plan, runId);
      && Consistent(catalog, origin, true, after)
      && MayOpen(after.runs, plan.checksum, reapply)
      && (Truthful(catalog, after, origin) <==> RunAll(plan.upgrade, origin) == origin)
  {
    hide RunAll, Consistent, AllInverse, LatestRun;
    var d := RunAll(plan.upgrade, b.data);
    var row := run.(status := AppliedSuccess, direction := Upgrade);
    var committed := Finished(Opened(b, run).(data := d), AppliedSuccess, false, Upgrade, d);
    var failed := OpenRun(committed, plan, |committed.runs| + 1, FailedRetryable, NoError, false, runId);
    var after := FailureRow(committed, plan, runId);
    ConsistentNumbers(catalog, origin, false, b);
    LatestIsLast(b.runs);
    NotUpgraded(catalog, origin, b);
    FinishedOpened(b, run, false, d);
    ConsistentWeakens(catalog, origin, b);
    OpenKeeps(catalog, origin, true, b, row, committed.events, d);
    OpenKeeps(catalog, origin, true, committed, failed, after.events, d);
    ConsistentNumbers(catalog, origin, true, after);
    LatestIsLast(after.runs);
  }

  /**
   * And what follows, from any journal that buries nothing: the next upgrade is let in and succeeds. The tables are
   * then upgraded twice, and the latest row is truthful exactly when that is the same as once.
   */
  method UpgradeTwice(s: Session, plan: Plan, reapply: bool) returns (first: Signal, second: Signal, result: Result)
    requires s.Valid() && s.catalog(plan.checksum) == plan
    requires NoBuriedSuccess(s.durable.runs) && AllInverse(s.catalog, s.durable.runs, s.origin)
    requires WillRun(s.durable, plan, Upgrade, false, reapply)
    requires AllGuardsHold(plan.upgrade, |plan.upgrade|, RunAll(plan.upgrade, s.durable.data))
    requires CutAt(s.faults, Actions(plan.upgrade, |plan.upgrade|) + 5, FailsAfter)
    modifies s
    ensures s.Valid() && first.Raised? && second.Ok? && result == Ended(AppliedSuccess)
    ensures Upgraded(s.durable.runs)
    ensures s.durable.data == RunAll(plan.upgrade, RunAll(plan.upgrade, s.origin))
    ensures Truthful(s.catalog, s.durable, s.origin) <==>
      RunAll(plan.upgrade, RunAll(plan.upgrade, s.origin)) == RunAll(plan.upgrade, s.origin)
  {
    hide RunAll, Consistent, AllInverse, AllGuardsHold, CutAt, Actions, LatestRun, UniqueIds, Replay;
    LatestRowIsTruthful(s.catalog, s.origin, s.lost, s.durable);
    s.LatestRow();
    var ignored;
    first, ignored := s.Execute(plan, Upgrade, false, reapply);
    s.LatestRow();
    second, result := s.Execute(plan, Upgrade, false, false);
  }

  lemma ConsistentNumbers(catalog: Catalog, origin: Data, lost: bool, b: Book)
    requires Consistent(catalog, origin, lost, b)
    ensures Numbered(b.runs)
  {
  }

  lemma ConsistentWeakens(catalog: Catalog, origin: Data, b: Book)
    requires Consistent(catalog, origin, false, b)
    ensures Consistent(catalog, origin, true, b)
  {
  }

  lemma NotUpgraded(catalog: Catalog, origin: Data, b: Book)
    requires Consistent(catalog, origin, false, b) && AllInverse(catalog, b.runs, origin)
    ensures !Upgraded(b.runs) ==> b.data == origin
  {
    LatestRowIsTruthful(catalog, origin, false, b);
  }

  /** One successful row of the plan more. */
  ghost predicate Extends(b: Book, b': Book, plan: Plan, baseline: bool) {
    && |b'.runs| == |b.runs| + 1 && b'.runs[..|b.runs|] == b.runs && b'.runs[|b.runs|].status == AppliedSuccess
    && b'.runs[|b.runs|].checksum == plan.checksum && b'.runs[|b.runs|].baseline == baseline
  }

  /** One row of a failure of the plan more. */
  ghost predicate Fails(b: Book, b': Book, plan: Plan) {
    && |b'.runs| == |b.runs| + 1 && b'.runs[..|b.runs|] == b.runs && b'.runs[|b.runs|].status == FailedRetryable
    && b'.runs[|b.runs|].checksum == plan.checksum
  }

  /** The upgrade took effect, and its successful row lies under the row of a failure. */
  ghost predicate Buries(b: Book, b': Book, plan: Plan) {
    && b'.data == RunAll(plan.upgrade, b.data)
    && exists middle: Book :: Extends(b, middle, plan, false) && Fails(middle, b', plan)
  }

  /** The row of a failure may follow what the run found, or the success it left. */
  lemma FailureMayFollow(b: Book, b': Book, plan: Plan, baseline: bool, reapply: bool)
    requires MayOpen(b.runs, plan.checksum, reapply) && (b' == b || Extends(b, b', plan, baseline))
    ensures b'.runs != [] ==>
      var last := b'.runs[|b'.runs| - 1];
      && last.checksum == plan.checksum && (last.status == RolledBack ==> reapply) && (b' == b ==> last.status != AppliedSuccess)
  {
  }

  lemma FailsAdds(b: Book, b': Book, plan: Plan)
    requires Fails(b, b', plan)
    ensures |b'.runs| == |b.runs| + 1 && b'.runs[|b.runs|].status == FailedRetryable
  {
  }

  lemma NowBuried(b: Book, middle: Book, b': Book, plan: Plan, baseline: bool)
    requires Fails(middle, b', plan) && b'.data == middle.data
    ensures !baseline && Extends(b, middle, plan, baseline) && middle.data == RunAll(plan.upgrade, b.data) ==> Buries(b, b', plan)
  {
  }

  lemma FailsGrows(b: Book, b': Book, plan: Plan)
    requires Fails(b, b', plan)
    ensures Grows(b.runs, b'.runs)
  {
    assert forall i :: 0 <= i < |b.runs| ==> b'.runs[..|b.runs|][i] == b.runs[i];
  }

  /** The last row rolled back. */
  ghost predicate Reverses(b: Book, b': Book) {
    && b.runs != [] && |b'.runs| == |b.runs| && b'.runs[..|b.runs| - 1] == b.runs[..|b.runs| - 1]
    && b'.runs[|b.runs| - 1].status == RolledBack
  }

  lemma OpenedRuns(b: Book, run: Run)
    ensures Opened(b, run).runs == b.runs + [run] && Opened(b, run).data == b.data
  {
  }

  lemma FinishedRuns(b: Book, status: Status, baseline: bool, direction: Direction, d: Data)
    requires b.runs != []
    ensures
      var f, n := Finished(b, status, baseline, direction, d), |b.runs| - 1;
      && |f.runs| == |b.runs| && f.runs[..n] == b.runs[..n] && f.data == d
      && f.runs[n].status == status && f.runs[n].checksum == b.runs[n].checksum && f.runs[n].baseline == baseline
  {
  }

  /** What a normal return means. */
  ghost predicate Finishes(b: Book, b': Book, plan: Plan, direction: Direction, baseline: bool, result: Result) {
    match result
    case Unchanged => b' == b && direction == Upgrade && b.runs != [] && b.runs[|b.runs| - 1].status == AppliedSuccess
    case Failed => false
    case Ended(status) =>
      && b'.runs != [] && b'.runs[|b'.runs| - 1].status == status
      && if direction == Rollback then
           && status == RolledBack && |b'.runs| == |b.runs| && b'.data == RunAll(plan.rollback, b.data)
           && AllGuardsHold(plan.rollback, |plan.rollback|, b.data)
         else
           && (baseline || AllGuardsHold(plan.upgrade, |plan.upgrade|, b.data))
           && status == AppliedSuccess && Extends(b, b', plan, baseline)
           && b'.data == if baseline then b.data else RunAll(plan.upgrade, b.data)
  }

  /** A run that ended normally has its row, and its guards held; one that found nothing to do found a success. */
  lemma FinishesPassed(b: Book, b': Book, plan: Plan, direction: Direction, baseline: bool, result: Result)
    ensures Finishes(b, b', plan, direction, baseline, result) && direction == Upgrade && result != Unchanged ==>
      baseline || AllGuardsHold(plan.upgrade, |plan.upgrade|, b.data)
    ensures Finishes(b, b', plan, direction, baseline, result) && result == Unchanged ==>
      b.runs != [] && b.runs[|b.runs| - 1].status == AppliedSuccess
  {
  }

  /** Rows are added; the only row that changes is a success that is rolled back. */
  ghost predicate Grows(runs: seq<Run>, runs': seq<Run>) {
    && |runs| <= |runs'|
    && forall i :: 0 <= i < |runs| ==>
         runs'[i] == runs[i] || (runs[i].status == AppliedSuccess && !runs[i].baseline && runs'[i].status == RolledBack)
  }

  lemma NothingGrows(runs: seq<Run>)
    ensures Grows(runs, runs)
  {
  }

  lemma GrowsJoin(a: seq<Run>, b: seq<Run>, c: seq<Run>)
    requires Grows(a, b) && Grows(b, c)
    ensures Grows(a, c)
  {
    forall i | 0 <= i < |a|
      ensures c[i] == a[i] || (a[i].status == AppliedSuccess && !a[i].baseline && c[i].status == RolledBack)
    {
      assert c[i] == b[i] || (b[i].status == AppliedSuccess && !b[i].baseline && c[i].status == RolledBack);
    }
  }
}
