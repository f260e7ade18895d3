/** Whole histories of the ClickHouse engine: what a success means, and when a verified retry misleads. */
module ClickHouseHistories {
  import opened Options
  import opened Plans
  import opened Journal
  import opened JournalSteps
  import opened HashChains
  import opened Connections
  import opened ClickHouseLog
  import opened ClickHouseData
  import opened ClickHousePlace
  import opened ClickHouseEngine

  // ---------- what the journal says of the user tables ----------

  /** The user tables after `top` epochs, each upgraded and rolled back in full. */
  ghost function RunEpochs(plan: Plan, top: nat, d: Data): Data {
    if top == 0 then d else RunAll(plan.rollback, RunAll(plan.upgrade, RunEpochs(plan, top - 1, d)))
  }

  lemma {:induction false} FoldLine(plan: Plan, top: nat, d: Data)
    requires UniqueIds(plan.upgrade) && UniqueIds(plan.rollback)
    ensures Fold(plan, Line(plan, top), {}, d) == RunEpochs(plan, top, d)
  {
    hide Fold, RunAll, Keys, UniqueIds;
    if top == 0 {
      FoldNothing(plan, d);
    } else {
      FoldLine(plan, top - 1, d);
      FoldUpgraded(plan, top, d);
      var up := Line(plan, top - 1) + Keys(plan, top, Upgrade);
      FoldJoin(plan, up, Keys(plan, top, Rollback), {}, d);
      FoldIsWhole(plan, top, Rollback, Fold(plan, up, {}, d));
    }
  }

  lemma FoldUpgraded(plan: Plan, top: nat, d: Data)
    requires top > 0 && UniqueIds(plan.upgrade)
    ensures Fold(plan, Line(plan, top - 1) + Keys(plan, top, Upgrade), {}, d) ==
      RunAll(plan.upgrade, Fold(plan, Line(plan, top - 1), {}, d))
  {
    hide Fold, RunAll, Keys, UniqueIds;
    FoldJoin(plan, Line(plan, top - 1), Keys(plan, top, Upgrade), {}, d);
    FoldIsWhole(plan, top, Upgrade, Fold(plan, Line(plan, top - 1), {}, d));
  }

  /** Nothing is missing from a finished direction but what was closed, and then nothing, if the guards could tell. */
  lemma NothingLost(server: Server)
    requires server.Valid() && Telling(server.ThePlan(), server.place, server.start) && !server.place.Dangling()
    ensures server.data == Fold(server.ThePlan(), server.place.intents, {}, server.start)
  {
    hide RunsSound, SentOnce, Truthful, Phases, Fold, Telling;
    var p := server.place;
    NothingMissing(server.ThePlan(), p, server.start, server.data, |p.intents|);
    assert p.intents[..|p.intents|] == p.intents;
  }

  /** The record that an accepted journal shows last is backed by the statements. */
  lemma LatestIsBacked(server: Server) returns (run: Run)
    requires server.Valid() && LastEpoch(server.runs) > 0 && Accepted(server.runHash, TopLog(server.runs))
    ensures server.Latest() == Some(run) && Backs(server.ThePlan(), LastEpoch(server.runs), server.place, run)
    ensures run.direction == Upgrade ==> |server.place.intents| <= Begins(server.ThePlan(), LastEpoch(server.runs), Rollback)
    ensures server.place.intents <= Line(server.ThePlan(), LastEpoch(server.runs))
  {
    hide SentOnce, Truthful, Stands, Tabled, Chain, Line, Keys, Backs, Begins;
    var top, log := LastEpoch(server.runs), TopLog(server.runs);
    assert EpochSound(server.runHash, server.runs, top);
    assert log != [];
    AcceptedIsWhole(server.runHash, log);
    OfIn(server.runs, top);
    run := Final(log).body.content;
    if run.direction == Upgrade && TurnedBack(server.runs, top) {
      var other :| other in server.runs && other.body.key == top && other.body.content.direction == Rollback;
      var i :| 0 <= i < |log| && log[i] == other;
      UpgradeOnly(server.runHash, log, i);
    }
  }

  /**
   * A success that an accepted journal shows is the whole upgrade on the user tables of before, over any number of
   * epochs, commands, faults and processes, if the guards of every statement that reconciliation closed could tell.
   */
  lemma SuccessIsReplay(server: Server)
    requires server.Valid() && LastEpoch(server.runs) > 0 && Accepted(server.runHash, TopLog(server.runs))
    requires server.Latest().Some? && server.Latest().value.status == AppliedSuccess && !server.Latest().value.baseline
    requires UniqueIds(server.ThePlan().upgrade) && UniqueIds(server.ThePlan().rollback)
    requires Telling(server.ThePlan(), server.place, server.start)
    ensures server.data == RunAll(server.ThePlan().upgrade, RunEpochs(server.ThePlan(), LastEpoch(server.runs) - 1, server.start))
  {
    hide Fold, Telling, RunAll, Keys, UniqueIds, Server.Valid;
    var plan, top := server.ThePlan(), LastEpoch(server.runs);
    var run := LatestIsBacked(server);
    NothingLost(server);
    FoldUpgraded(plan, top, server.start);
    FoldLine(plan, top - 1, server.start);
    LineParts(plan, top);
    assert server.place.intents == Line(plan, top - 1) + Keys(plan, top, Upgrade);
  }

  /** And a rollback that it shows is every epoch run and undone. */
  lemma RollbackIsReplay(server: Server)
    requires server.Valid() && LastEpoch(server.runs) > 0 && Accepted(server.runHash, TopLog(server.runs))
    requires server.Latest().Some? && server.Latest().value.status == RolledBack
    requires UniqueIds(server.ThePlan().upgrade) && UniqueIds(server.ThePlan().rollback)
    requires Telling(server.ThePlan(), server.place, server.start)
    ensures server.data == RunEpochs(server.ThePlan(), LastEpoch(server.runs), server.start)
  {
    hide Fold, Telling, RunAll, Keys, UniqueIds, Server.Valid;
    var plan, top := server.ThePlan(), LastEpoch(server.runs);
    var run := LatestIsBacked(server);
    NothingLost(server);
    FoldLine(plan, top, server.start);
    LineParts(plan, top);
    assert server.place.intents == Line(plan, top);
  }

  // ---------- where nothing fails ----------

  /** What one process wrote it reads back: the record that was inserted last. */
  lemma ReadsLast(server: Server)
    requires server.Valid() && server.Orderly() && TopLog(server.runs) != []
    ensures server.Readable() && server.Latest() == Some(TopLog(server.runs)[|TopLog(server.runs)| - 1].body.content)
  {
    hide RunsSound, SentOnce, Truthful, Laid, Stands;
    server.OrderlyIsReadable();
    InOrderFinal(server.runHash, server.runs, server.lastVersion, LastEpoch(server.runs));
  }

  /** A plan can be run in full, and undone, on these user tables. */
  ghost predicate Sure(plan: Plan, d: Data) {
    && UniqueIds(plan.upgrade) && UniqueIds(plan.rollback) && !plan.irreversible
    && AllGuardsHold(plan.upgrade, |plan.upgrade|, d)
    && AllGuardsHold(plan.rollback, |plan.rollback|, RunAll(plan.upgrade, d))
  }

  lemma FirstWillRun(server: Server, plan: Plan)
    requires server.Valid() && server.Orderly() && server.runs == [] && UniqueIds(plan.upgrade)
    requires AllGuardsHold(plan.upgrade, |plan.upgrade|, server.data)
    ensures server.WillRun(plan, Upgrade, false, false) && server.Before(plan, Upgrade, false) == 0
  {
    hide AllGuardsHold, PassOn, RunsSound, Stands, UniqueIds;
    server.OrderlyIsReadable();
    server.NothingIntended();
    PassOnAll(plan.upgrade, server.data);
    assert Line(plan, 0) == [] && TopLog(server.runs) == [];
  }

  /** After a successful upgrade the rollback may run, from its first statement on. */
  lemma RollbackWillRun(server: Server, plan: Plan, before: seq<CheckRecord>)
    requires server.Valid() && server.Orderly() && server.Succeeded(plan, Upgrade, false) && server.ThePlan() == plan
    requires ReachedTo(server.place, Ends(plan, LastEpoch(server.runs), Upgrade)) && LastEpoch(server.runs) > 0
    requires before == [] && Server.OnlyOf(before, server.checks, LastEpoch(server.runs), Upgrade)
    requires UniqueIds(plan.rollback) && !plan.irreversible && AllGuardsHold(plan.rollback, |plan.rollback|, server.data)
    ensures server.WillRun(plan, Rollback, false, false) && server.Before(plan, Rollback, false) == 0
  {
    hide AllGuardsHold, PassOn, UniqueIds, Server.Readable, Server.Latest, Begins, Ends, Server.Valid, Admit, Accepted, Backs,
      Line, InOrder, Checked, Of, LastEpoch, Server.OnlyOf, Server.AllShown;
    ReadsLast(server);
    OrderlyIsAccepted(server);
    var run := LatestIsBacked(server);
    SuccessAdmitsRollback(run, plan.checksum);
    PassOnAll(plan.rollback, server.data);
    BeginsAfter(plan, LastEpoch(server.runs));
    NoneToShow(before, server.checks, LastEpoch(server.runs));
  }

  lemma SuccessAdmitsRollback(run: Run, checksum: string)
    requires run.status == AppliedSuccess && !run.baseline && run.checksum == checksum
    ensures Admit(Some(run), checksum, Rollback, false) == Admission.Resume(run.epoch)
  {
  }

  lemma NoneToShow(before: seq<CheckRecord>, checks: seq<CheckRecord>, epoch: nat)
    requires before == [] && Server.OnlyOf(before, checks, epoch, Upgrade)
    ensures Server.AllShown(checks, epoch, Rollback)
  {
    assert Checked(before) == {};
  }

  lemma BeginsAfter(plan: Plan, top: nat)
    requires top > 0
    ensures Begins(plan, top, Rollback) == Ends(plan, top, Upgrade)
  {
  }

  lemma OrderlyIsAccepted(server: Server)
    requires server.Valid() && server.Orderly() && TopLog(server.runs) != []
    ensures LastEpoch(server.runs) > 0 && Accepted(server.runHash, TopLog(server.runs))
  {
    hide SentOnce, Truthful, Laid, Stands;
    var log := TopLog(server.runs);
    OrderIsByVersion(log);
    InOrderValidates(server.runHash, server.runs, server.lastVersion, LastEpoch(server.runs), OrderByVersion(log));
    OfIn(server.runs, LastEpoch(server.runs));
    assert log[0] in log;
    SomeEpoch(server.runs, log[0]);
  }

  /** Where nothing fails, on any clock, a plan whose guards hold is applied in full and then undone in full. */
  method CleanRoundTrip(runHash: RunHashing, checkHash: Hashing<Key, Checkpoint>, data: Data, clock: seq<nat>, plan: Plan,
                        ghost catalog: string -> Plan)
    returns (server: Server, up: Signal, down: Signal)
    requires Collisionless(runHash) && plan == catalog(plan.checksum) && Sure(plan, data)
    ensures up.Ok? && down.Ok?
    ensures server.data == RunAll(plan.rollback, RunAll(plan.upgrade, data))
    ensures server.Valid() && server.Readable() && server.Succeeded(plan, Rollback, false)
  {
    hide AllGuardsHold, PassOn, RunOn, UniqueIds, RunAll, RunsSound, SentOnce, Truthful, Laid, Stands, InOrder, Of, LastEpoch,
      Ends, Begins, ReachedTo, Server.Readable, Server.Startable, Server.WillRun, Admit, Server.Admitted;
    server := new Server(runHash, checkHash, data, [], clock, catalog);
    FirstWillRun(server, plan);
    RunOnAll(plan.upgrade, data);
    RunOnAll(plan.rollback, RunAll(plan.upgrade, data));
    ghost var before := server.checks;
    var started;
    up, started := server.Execute(plan, Upgrade, false, false);
    UnderOnePlan(server, plan, Upgrade);
    RollbackWillRun(server, plan, before);
    down, started := server.Execute(plan, Rollback, false, false);
    server.OrderlyIsReadable();
  }

  /** The plan of a journal that ends in a success of it. */
  lemma UnderOnePlan(server: Server, plan: Plan, direction: Direction)
    requires server.Valid() && server.Succeeded(plan, direction, false) && plan == server.catalog(plan.checksum)
    ensures server.ThePlan() == plan && LastEpoch(server.runs) > 0
  {
    hide SentOnce, Truthful, Stands, Tabled, Phases, InLine;
    var log := TopLog(server.runs);
    OfIn(server.runs, LastEpoch(server.runs));
    assert log[|log| - 1] in log;
    SomeEpoch(server.runs, log[|log| - 1]);
  }

  // ---------- a retry after an interruption ----------

  /**
   * One process, nothing failing any more: the latest run of this direction ended in doubt, and every checkpoint
   * of the direction that is still open is its own.
   */
  ghost predicate Interrupted(server: Server, plan: Plan, direction: Direction)
    reads server
  {
    && server.Valid() && server.faults == [] && server.Orderly() && server.Doubtful()
    && plan == server.catalog(plan.checksum) && UniqueIds(plan.upgrade) && UniqueIds(plan.rollback)
    && (direction == Rollback ==> !plan.irreversible)
    && var run := server.Latest().value;
    && run.checksum == plan.checksum && run.direction == direction && (direction == Rollback ==> !run.baseline)
    && run.epoch == LastEpoch(server.runs) > 0
    && (forall k :: k in server.Left(run.epoch, run.runId) ==> k.direction == direction)
    && forall k :: k in Checked(server.checks) && k.epoch == run.epoch && k.direction == direction ==>
         Server.Shown(server.checks, k) || k in server.Left(run.epoch, run.runId)
  }

  /** The guards that reconciliation and the retry run: all of them hold on the way. */
  ghost predicate Persuaded(server: Server, plan: Plan, direction: Direction)
    requires server.Latest().Some?
    reads server
  {
    var run := server.Latest().value;
    && (forall k :: k in server.Left(run.epoch, run.runId) ==> Vouched(plan, k, server.data))
    && PassOn(plan.Steps(direction), 0, server.Behind(direction), server.data)
  }

  /** Every stored row has the reviewed digest, so only the guards decide. */
  lemma GuardsDecide(server: Server, plan: Plan, direction: Direction)
    requires Interrupted(server, plan, direction)
    ensures server.ThePlan() == plan
    ensures
      var run := server.Latest().value;
      server.MayRetry(Some(plan)) <==> forall k :: k in server.Left(run.epoch, run.runId) ==> Vouched(plan, k, server.data)
  {
    hide RunsSound, SentOnce, Truthful, Stands, Phases, InLine, Vouched, InOrder, Server.Readable, UniqueIds;
    var run := server.Latest().value;
    assert server.ThePlan() == plan by {
      LatestChecksum(server);
    }
    forall k | k in server.Left(run.epoch, run.runId) ensures server.RowReviewed(plan, k) {
      server.FinalMatches(k);
    }
  }

  lemma LatestChecksum(server: Server)
    requires server.Valid() && server.Latest().Some?
    ensures server.runs != [] && server.Latest().value.checksum == server.runs[0].body.content.checksum
  {
    hide RunsSound, SentOnce, Truthful, Stands, Phases, InLine, Tabled;
    OfIn(server.runs, LastEpoch(server.runs));
    assert Final(TopLog(server.runs)) in TopLog(server.runs);
  }

  /** What reconciliation leaves admits a run that goes on in the same epoch. */
  lemma ReconciledAdmits(server: Server, plan: Plan, direction: Direction, run: Run)
    requires server.Valid() && server.Orderly()
    requires direction == Rollback ==> !run.baseline
    requires run.checksum == plan.checksum && run.direction == direction && run.epoch == LastEpoch(server.runs)
    requires TopLog(server.runs) != [] && TopLog(server.runs)[|TopLog(server.runs)| - 1].body.content ==
      run.(status := FailedRetryable, error := ReconciledVerified)
    ensures server.Readable() && LastEpoch(server.runs) > 0
    ensures server.Admitted(plan, direction, false) == Admission.Resume(LastEpoch(server.runs))
  {
    hide Server.Valid, InOrder, Server.Readable, Server.Latest, LastEpoch, Of, Admit, Accepted;
    ReadsLast(server);
    RetryIsAdmitted(run, plan.checksum);
    OrderlyIsAccepted(server);
  }

  lemma RetryWillRun(server: Server, plan: Plan, direction: Direction)
    requires server.Readable() && LastEpoch(server.runs) > 0 && server.ThePlan() == plan && UniqueIds(plan.Steps(direction))
    requires direction == Rollback ==> !plan.irreversible
    requires server.Admitted(plan, direction, false) == Admission.Resume(LastEpoch(server.runs))
    requires Server.AllShown(server.checks, LastEpoch(server.runs), direction)
    ensures server.Before(plan, direction, false) == server.Behind(direction)
    ensures PassOn(plan.Steps(direction), 0, server.Behind(direction), server.data) ==>
      server.WillRun(plan, direction, false, false)
  {
    hide PassOn, Server.Readable, UniqueIds, Server.AllShown, Begins, Server.Admitted, LastEpoch, Server.ThePlan;
  }

  lemma RetryIsAdmitted(run: Run, checksum: string)
    requires run.checksum == checksum && (run.direction == Rollback ==> !run.baseline)
    ensures Admit(Some(run.(status := FailedRetryable, error := ReconciledVerified)), checksum, run.direction, false) ==
      Admission.Resume(run.epoch)
  {
  }

  lemma ShownAfter(before: seq<CheckRecord>, checks: seq<CheckRecord>, epoch: nat, direction: Direction, left: set<Key>)
    requires Checked(checks) == Checked(before) && Server.StaysShown(before, checks) && Server.ShownIn(checks, left)
    requires forall k :: k in Checked(before) && k.epoch == epoch && k.direction == direction ==> Server.Shown(before, k) || k in left
    ensures Server.AllShown(checks, epoch, direction)
  {
    hide Server.Shown, Checked;
  }

  /**
   * A verified reconciliation and the retry after it. They succeed if and only if the after-guards of what the
   * interrupted run touched pass on what it left, and every guard of the direction passes on the way from there;
   * and then exactly the statements without a checkpoint have been run.
   */
  method RetryAfterCrash(server: Server, plan: Plan, direction: Direction) returns (success: bool)
    requires Interrupted(server, plan, direction)
    modifies server
    ensures server.Valid()
    ensures success <==> old(Persuaded(server, plan, direction))
    ensures success ==>
      && server.Succeeded(plan, direction, false)
      && server.data == RunOn(plan.Steps(direction), 0, old(server.Behind(direction)), old(server.data))
  {
    hide RunsSound, SentOnce, Truthful, Laid, Stands, InOrder, PassOn, RunOn, Vouched, Server.Readable, UniqueIds, Server.Shown,
      Server.AllShown, Server.ShownIn, Server.StaysShown, Checked, Begins, LastEpoch, Of, Final, Admit, Server.Latest, Server.Left,
      ReachedTo, Server.WillRun, Server.Admitted, Server.MayRetry, Server.Before, Advanced;
    success := false;
    GuardsDecide(server, plan, direction);
    ghost var run, before, left := server.Latest().value, server.checks, server.Left(server.Latest().value.epoch, server.Latest().value.runId);
    var signal, settled := server.Reconcile(Some(plan), VerifiedRetry);
    if settled != Some(FailedRetryable) { return; }
    ShownAfter(before, server.checks, run.epoch, direction, left);
    ReconciledAdmits(server, plan, direction, run);
    RetryWillRun(server, plan, direction);
    var started;
    signal, started := server.Execute(plan, direction, false, false);
    success := signal.Ok? && started;
  }

  /** The line, from where a direction begins to statement `i` of the step at `k`. */
  lemma BlockIs(plan: Plan, top: nat, d: Direction, k: nat, i: nat)
    requires top > 0 && k < |plan.Steps(d)| && i <= |plan.Steps(d)[k].statements|
    ensures
      var b, n := Begins(plan, top, d), Offset(plan.Steps(d), k) + i;
      && b + n <= |Line(plan, top)|
      && Line(plan, top)[b..b + n] == KeysBelow(top, d, plan.Steps(d), k) + StepKeys(top, d, plan.Steps(d)[k])[..i]
  {
    hide Line, KeysBelow, Offset, Begins, Ends;
    var steps, b := plan.Steps(d), Begins(plan, top, d);
    var n := Offset(steps, k) + i;
    BlockFits(plan, top, d, k, i);
    var block, keys := Line(plan, top)[b..b + n], KeysBelow(top, d, steps, k) + StepKeys(top, d, steps[k])[..i];
    forall q | 0 <= q < n ensures block[q] == keys[q] {
      if q < Offset(steps, k) {
        var j, h := KeysBelowIs(top, d, steps, k, q);
        LineAt(plan, top, d, j, h);
      } else {
        LineAt(plan, top, d, k, q - Offset(steps, k));
      }
    }
    assert block == keys;
  }

  lemma BlockFits(plan: Plan, top: nat, d: Direction, k: nat, i: nat)
    requires top > 0 && k < |plan.Steps(d)| && i <= |plan.Steps(d)[k].statements|
    ensures Begins(plan, top, d) + Offset(plan.Steps(d), k) + i <= |Line(plan, top)|
  {
    hide KeysBelow;
    OffsetGrows(plan.Steps(d), k, |plan.Steps(d)|);
    KeysLength(plan, top, d);
    LineParts(plan, top);
  }

  /** The user tables when this direction of the latest epoch began. */
  ghost function EntryOf(server: Server, plan: Plan, direction: Direction): Data
    requires LastEpoch(server.runs) > 0 && |server.place.intents| >= Begins(plan, LastEpoch(server.runs), direction)
    reads server
  {
    Fold(plan, server.place.intents[..Begins(plan, LastEpoch(server.runs), direction)], server.place.missing, server.start)
  }

  /** The direction was interrupted at statement `i` of the step at `k`, and only that one's effect can be missing. */
  ghost predicate StoppedAt(server: Server, plan: Plan, direction: Direction, k: nat, i: nat)
    reads server
  {
    var steps, n := plan.Steps(direction), |server.place.intents|;
    && k < |steps| && 0 < i <= |steps[k].statements| && LastEpoch(server.runs) > 0
    && n == Begins(plan, LastEpoch(server.runs), direction) + Offset(steps, k) + i
    && forall q :: Begins(plan, LastEpoch(server.runs), direction) <= q < n - 1 ==> server.place.intents[q] !in server.place.missing
  }

  ghost predicate LastMissing(p: Place) {
    p.intents != [] && p.intents[|p.intents| - 1] in p.missing
  }

  /** The effects of the step in progress are all of its checkpoints, or all but the last. */
  lemma AllOrAllButLast(server: Server, plan: Plan, direction: Direction, k: nat, i: nat)
    requires server.Valid() && server.ThePlan() == plan && UniqueIds(plan.Steps(direction)) && StoppedAt(server, plan, direction, k, i)
    ensures
      var entry := RunSteps(plan.Steps(direction), k, EntryOf(server, plan, direction));
      server.data == Prefix(plan.Steps(direction)[k].statements, if LastMissing(server.place) then i - 1 else i, entry)
  {
    hide RunsSound, SentOnce, Truthful, Phases, Tabled, Fold, RunSteps, Prefix, Begins, Offset, KeysBelow, Line, StepKeys, UniqueIds,
      LastEpoch, Vouched, OneChecksum, StatementAt;
    var p, top, steps := server.place, LastEpoch(server.runs), plan.Steps(direction);
    var b, n := Begins(plan, top, direction), |p.intents|;
    var key, before, entry := p.intents[n - 1], p.intents[b..n - 1], EntryOf(server, plan, direction);
    assert p.intents == p.intents[..b] + (before + [key]);
    FoldJoin(plan, p.intents[..b], before + [key], p.missing, server.start);
    FoldPush(plan, before, key, p.missing, entry);
    FoldPush(plan, before, key, {}, entry);
    forall other | other in before ensures other !in p.missing {
      var q :| 0 <= q < |before| && before[q] == other;
      assert p.intents[b + q] == other;
    }
    FoldAgrees(plan, before, p.missing, {}, entry);
    BlockRun(plan, top, direction, k, i - 1, entry);
    BlockRun(plan, top, direction, k, i, entry);
    var line := Line(plan, top);
    assert p.intents <= line;
    assert before == line[b..n - 1] && before + [key] == line[b..n];
  }

  lemma BlockRun(plan: Plan, top: nat, d: Direction, k: nat, i: nat, entry: Data)
    requires top > 0 && k < |plan.Steps(d)| && i <= |plan.Steps(d)[k].statements| && UniqueIds(plan.Steps(d))
    ensures
      var b, n := Begins(plan, top, d), Offset(plan.Steps(d), k) + i;
      && b + n <= |Line(plan, top)|
      && Fold(plan, Line(plan, top)[b..b + n], {}, entry) ==
           Prefix(plan.Steps(d)[k].statements, i, RunSteps(plan.Steps(d), k, entry))
  {
    hide Fold, RunSteps, Prefix, Begins, Offset, KeysBelow, Line, StepKeys, UniqueIds;
    BlockIs(plan, top, d, k, i);
    FoldJoin(plan, KeysBelow(top, d, plan.Steps(d), k), StepKeys(top, d, plan.Steps(d)[k])[..i], {}, entry);
    FoldSteps(plan, top, d, k, entry);
    FoldStep(plan, top, d, k, i, RunSteps(plan.Steps(d), k, entry));
  }

  /** What the retry makes of the interrupted step when its last effect is missing. */
  ghost function ShortResult(steps: seq<Step>, k: nat, i: nat, entry: Data): Data
    requires k < |steps| && 0 < i <= |steps[k].statements|
  {
    var short := Prefix(steps[k].statements, i - 1, RunSteps(steps, k, entry));
    RunRest(steps, k + 1, From(steps[k].statements, i, |steps[k].statements|, short))
  }

  /**
   * What decides for a plan: if the guards of the interrupted step, and those of the direction from there on, pass on
   * the tables without the statement's effect, then the rest of the direction makes up for it.
   */
  ghost predicate Recovers(steps: seq<Step>, k: nat, i: nat, entry: Data)
    requires k < |steps| && 0 < i <= |steps[k].statements|
  {
    Convinced(steps, k, i, Prefix(steps[k].statements, i - 1, RunSteps(steps, k, entry))) ==>
      ShortResult(steps, k, i, entry) == RunAll(steps, entry)
  }

  ghost predicate Convinced(steps: seq<Step>, k: nat, i: nat, d: Data)
    requires k < |steps|
  {
    steps[k].after != [] && Passes(steps[k].after, d) && PassOn(steps, 0, Offset(steps, k) + i, d)
  }

  /** Going on from there runs the rest of the step and the steps after it. */
  lemma ResultIs(steps: seq<Step>, k: nat, i: nat, entry: Data)
    requires k < |steps| && 0 < i <= |steps[k].statements|
    ensures
      var d := RunSteps(steps, k, entry);
      && RunOn(steps, 0, Offset(steps, k) + i, Prefix(steps[k].statements, i, d)) == RunAll(steps, entry)
      && RunOn(steps, 0, Offset(steps, k) + i, Prefix(steps[k].statements, i - 1, d)) == ShortResult(steps, k, i, entry)
  {
    hide Prefix, RunSteps, RunOn, RunRest, Offset;
    var statements, d := steps[k].statements, RunSteps(steps, k, entry);
    RunOnSkips(steps, 0, k, Offset(steps, k) + i, Prefix(statements, i, d));
    RunOnSkips(steps, 0, k, Offset(steps, k) + i, Prefix(statements, i - 1, d));
    FromJoin(statements, i, |statements|, d);
    NextSteps(steps, k, entry);
    RestOfAll(steps, k + 1, entry);
  }

  lemma NextSteps(steps: seq<Step>, k: nat, d: Data)
    requires k < |steps|
    ensures RunSteps(steps, k + 1, d) == Prefix(steps[k].statements, |steps[k].statements|, RunSteps(steps, k, d))
  {
  }

  /**
   * After an interruption, success means that the whole direction ran, if and only if the last statement's effect
   * is there, or some guard refuses, or the rest of the direction makes up for it. The guards are those that
   * reconciliation runs on the tables as they are, and those of the retry up to the end of the direction.
   */
  method RetryInterrupted(server: Server, plan: Plan, direction: Direction, ghost k: nat, ghost i: nat) returns (success: bool)
    requires Interrupted(server, plan, direction) && StoppedAt(server, plan, direction, k, i)
    modifies server
    ensures success <==> old(Persuaded(server, plan, direction))
    ensures
      var steps, entry := plan.Steps(direction), old(EntryOf(server, plan, direction));
      (success ==> server.data == RunAll(steps, entry)) <==>
        || !old(LastMissing(server.place)) || !old(Persuaded(server, plan, direction))
        || ShortResult(steps, k, i, entry) == RunAll(steps, entry)
    ensures
      var steps, entry := plan.Steps(direction), old(EntryOf(server, plan, direction));
      Recovers(steps, k, i, entry) && success ==> server.data == RunAll(steps, entry)
  {
    hide Recovers, Interrupted, StoppedAt, RunAll, RunOn, Persuaded, ShortResult, EntryOf, Server.Valid, Server.Succeeded, Server.Behind;
    StopMeans(server, plan, direction, k, i);
    PersuadedRecovers(server, plan, direction, k, i);
    success := RetryAfterCrash(server, plan, direction);
  }

  /** What going on from there makes of the user tables. */
  lemma StopMeans(server: Server, plan: Plan, direction: Direction, k: nat, i: nat)
    requires Interrupted(server, plan, direction) && StoppedAt(server, plan, direction, k, i)
    ensures LastEpoch(server.runs) > 0 && |server.place.intents| >= Begins(plan, LastEpoch(server.runs), direction)
    ensures k < |plan.Steps(direction)| && 0 < i <= |plan.Steps(direction)[k].statements|
    ensures
      var steps, entry := plan.Steps(direction), EntryOf(server, plan, direction);
      RunOn(steps, 0, server.Behind(direction), server.data) ==
        if LastMissing(server.place) then ShortResult(steps, k, i, entry) else RunAll(steps, entry)
  {
    hide Server.Valid, RunAll, RunOn, Prefix, RunSteps, ShortResult, Begins, Offset, EntryOf, Server.Doubtful, InOrder,
      Server.Latest, Server.Left, Server.Shown, UniqueIds, LastEpoch;
    GuardsDecide(server, plan, direction);
    AllOrAllButLast(server, plan, direction, k, i);
    ResultIs(plan.Steps(direction), k, i, EntryOf(server, plan, direction));
  }

  /** Whatever runs there were, the guards of the interrupted step have passed on the tables as they are. */
  lemma PersuadedIsConvinced(server: Server, plan: Plan, direction: Direction, k: nat, i: nat)
    requires Interrupted(server, plan, direction) && StoppedAt(server, plan, direction, k, i)
    requires LastMissing(server.place) && Persuaded(server, plan, direction)
    ensures Convinced(plan.Steps(direction), k, i, server.data)
  {
    hide RunsSound, SentOnce, Truthful, Phases, Fold, Begins, Offset, InOrder, Server.Readable, PassOn, Passes, UniqueIds, Final,
      Line, LastEpoch, Of, Matching, Checked, Server.Latest;
    GuardsDecide(server, plan, direction);
    var p, top, steps := server.place, LastEpoch(server.runs), plan.Steps(direction);
    var key := p.intents[|p.intents| - 1];
    LineAt(plan, top, direction, k, i - 1);
    IndexOfUnique(steps, k);
    assert p.intents[..|p.intents| - 1 + 1] == p.intents;
    if key !in p.closed {
      NoneDoneHidden(server.checks, key);
    }
  }

  lemma NoneDoneHidden(checks: seq<CheckRecord>, key: Key)
    requires NoneDone(checks, key)
    ensures !Server.Shown(checks, key)
  {
    OfElements(checks, key);
  }

  lemma PersuadedRecovers(server: Server, plan: Plan, direction: Direction, k: nat, i: nat)
    requires Interrupted(server, plan, direction) && StoppedAt(server, plan, direction, k, i)
    ensures server.Latest().Some? && LastEpoch(server.runs) > 0
    ensures |server.place.intents| >= Begins(plan, LastEpoch(server.runs), direction)
    ensures
      var steps, entry := plan.Steps(direction), EntryOf(server, plan, direction);
      && k < |steps| && 0 < i <= |steps[k].statements|
      && (LastMissing(server.place) && Persuaded(server, plan, direction) && Recovers(steps, k, i, entry) ==>
            ShortResult(steps, k, i, entry) == RunAll(steps, entry))
  {
    hide Server.Valid, Convinced, RunSteps, Prefix, ShortResult, RunAll, EntryOf, Begins, UniqueIds, LastEpoch, Server.Latest,
      Server.Left, Server.Shown, InOrder, Persuaded, Server.Readable;
    if LastMissing(server.place) && Persuaded(server, plan, direction) {
      PersuadedIsConvinced(server, plan, direction, k, i);
    }
    GuardsDecide(server, plan, direction);
    AllOrAllButLast(server, plan, direction, k, i);
  }

  // ---------- the history that misleads ----------

  function Script(n: nat, last: Fault): (faults: seq<Fault>)
    requires last.FailsBefore? || last.FailsAfter?
    ensures Stops(faults, n, last)
  {
    if n > 0 then [NoFault] + Script(n - 1, last) else if last.FailsBefore? then [NoFault, FailsBefore] else [FailsAfter]
  }

  /** One step of one statement, and a guard that passes although the statement has not run. */
  ghost predicate Gullible(plan: Plan, d: Data) {
    && |plan.upgrade| == 1 && UniqueIds(plan.rollback)
    && var step := plan.upgrade[0];
    && step.before == [] && |step.statements| == 1 && step.after != [] && Passes(step.after, d)
  }

  lemma GullibleIsSimple(plan: Plan, d: Data)
    requires Gullible(plan, d)
    ensures Server.Simple(plan, d) && UniqueIds(plan.upgrade)
    ensures RunAll(plan.upgrade, d) == plan.upgrade[0].statements[0].effect(d)
  {
    assert RunSteps(plan.upgrade, 0, d) == d;
    assert Prefix(plan.upgrade[0].statements, 0, d) == d;
  }

  /** The first run got as far as the checkpoint of its only statement: all that is left to ask is a guard that passes. */
  lemma StalledIsInterrupted(server: Server, plan: Plan)
    requires server.Valid() && server.Orderly() && server.faults == [] && server.Stalled(plan, true)
    requires plan == server.catalog(plan.checksum) && Gullible(plan, server.data)
    ensures Interrupted(server, plan, Upgrade) && server.Behind(Upgrade) == 1
    ensures server.Latest().Some? && forall k :: k in server.Left(server.Latest().value.epoch, server.Latest().value.runId) ==>
      k == Key(1, Upgrade, plan.upgrade[0].id, 0)
  {
    hide Server.Valid, InOrder, Server.Readable, Server.Latest, Passes;
    GullibleIsSimple(plan, server.data);
    ReadsLast(server);
    var key, r := Key(1, Upgrade, plan.upgrade[0].id, 0), server.checks[0];
    assert server.checks == [r];
    OnlyRecord(server.checks, r);
    assert Line(plan, 0) == [];
  }

  lemma OnlyRecord(checks: seq<CheckRecord>, r: CheckRecord)
    requires checks == [r]
    ensures Checked(checks) == {r.body.key} && Of(checks, r.body.key) == [r] && Final(Of(checks, r.body.key)) == r
  {
    assert checks[..0] == [];
    assert Of(checks[..0], r.body.key) == [];
  }

  lemma StalledIsPersuaded(server: Server, plan: Plan)
    requires Interrupted(server, plan, Upgrade) && server.Behind(Upgrade) == 1 && Gullible(plan, server.data)
    requires forall k :: k in server.Left(server.Latest().value.epoch, server.Latest().value.runId) ==>
      k == Key(1, Upgrade, plan.upgrade[0].id, 0)
    ensures Persuaded(server, plan, Upgrade)
    ensures RunOn(plan.upgrade, 0, 1, server.data) == server.data
  {
    hide Interrupted, Passes, Server.Left;
    GullibleIsSimple(plan, server.data);
    IndexOfUnique(plan.upgrade, 0);
    assert Offset(plan.upgrade, 0) == 0;
    assert RunOnStep(plan.upgrade, 0, 1, server.data) == server.data;
    assert RunOn(plan.upgrade, 1, 1, server.data) == server.data;
    assert PassOn(plan.upgrade, 1, 1, server.data);
    assert Passes([], server.data) by {
      NoGuards(server.data);
    }
  }

  lemma NoGuards(d: Data)
    ensures Passes([], d)
  {
  }

  /**
   * The statement of a plan fails before its effect, right after its checkpoint. The guard passes as it would
   * afterwards, reconciliation closes the checkpoint, the retry skips it, and the journal says APPLIED_SUCCESS of
   * user tables that the statement never reached.
   */
  method MistakenRetry(runHash: RunHashing, checkHash: Hashing<Key, Checkpoint>, data: Data, clock: seq<nat>, plan: Plan,
                       ghost catalog: string -> Plan)
    returns (server: Server, first: Signal, success: bool)
    requires Collisionless(runHash) && plan == catalog(plan.checksum) && Gullible(plan, data)
    ensures first.Raised? && success && server.Succeeded(plan, Upgrade, false)
    ensures server.data == data
    ensures server.data == RunAll(plan.upgrade, data) <==> plan.upgrade[0].statements[0].effect(data) == data
  {
    hide Gullible, Server.Simple, RunAll, Server.Valid, InOrder, Server.Stalled, Interrupted, Persuaded, RunOn, Server.Succeeded;
    GullibleIsSimple(plan, data);
    server := new Server(runHash, checkHash, data, Script(7, FailsBefore), clock, catalog);
    var started;
    first, started := server.Execute(plan, Upgrade, false, false);
    StalledIsInterrupted(server, plan);
    StalledIsPersuaded(server, plan);
    GullibleSteps(plan, data);
    success := RetryAfterCrash(server, plan, Upgrade);
  }

  /**
   * The checkpoint of the first statement takes effect and its reply is lost. The run believes that nothing has
   * happened: the journal says "no side effects" beside a checkpoint that is open.
   */
  method UnheardCheckpoint(runHash: RunHashing, checkHash: Hashing<Key, Checkpoint>, data: Data, clock: seq<nat>, plan: Plan,
                           ghost catalog: string -> Plan)
    returns (server: Server, first: Signal)
    requires Collisionless(runHash) && plan == catalog(plan.checksum) && Server.Simple(plan, data)
    ensures server.Valid() && server.Readable() && first.Raised? && server.data == data
    ensures server.Latest().Some? && server.Latest().value.status == FailedRetryable && server.Latest().value.error == NoSideEffects
    ensures server.Admitted(plan, Upgrade, false) == Admission.Resume(1)
    ensures Checked(server.checks) == {Key(1, Upgrade, plan.upgrade[0].id, 0)}
    ensures !Server.Shown(server.checks, Key(1, Upgrade, plan.upgrade[0].id, 0))
  {
    hide Server.Simple, Server.Valid, InOrder, Server.Readable, Server.Latest, Server.Admitted, Server.Shown;
    assert plan.upgrade != [] by {
      SimpleSteps(plan, data);
    }
    server := new Server(runHash, checkHash, data, Script(7, FailsAfter), clock, catalog);
    var started;
    first, started := server.Execute(plan, Upgrade, false, false);
    StalledUnheard(server, plan);
  }

  /** Beside an open checkpoint no run of its direction returns normally, whatever else fails or does not. */
  method OpenRefuses(server: Server, plan: Plan, direction: Direction) returns (signal: Signal)
    requires server.Valid() && plan == server.catalog(plan.checksum)
    requires server.Admitted(plan, direction, false).Resume?
    requires !Server.AllShown(server.checks, server.Admitted(plan, direction, false).epoch, direction)
    modifies server
    ensures !signal.Ok? && server.Valid()
  {
    hide Server.Valid, Server.AllShown, PassOn, Server.Startable, Server.Admitted, Advanced, Server.Succeeded;
    var started;
    signal, started := server.Execute(plan, direction, false, false);
  }

  lemma SimpleSteps(plan: Plan, d: Data)
    requires Server.Simple(plan, d)
    ensures plan.upgrade != []
  {
  }

  lemma StalledUnheard(server: Server, plan: Plan)
    requires server.Valid() && server.Orderly() && server.Stalled(plan, false)
    ensures server.Readable() && server.Latest().Some?
    ensures server.Latest().value.status == FailedRetryable && server.Latest().value.error == NoSideEffects
    ensures server.Admitted(plan, Upgrade, false) == Admission.Resume(1)
    ensures Checked(server.checks) == {Key(1, Upgrade, plan.upgrade[0].id, 0)}
    ensures !Server.Shown(server.checks, Key(1, Upgrade, plan.upgrade[0].id, 0))
  {
    hide Server.Valid, InOrder, Server.Readable, Server.Latest;
    ReadsLast(server);
    var key, r := Key(1, Upgrade, plan.upgrade[0].id, 0), server.checks[0];
    assert server.checks == [r];
    OnlyRecord(server.checks, r);
  }

  lemma GullibleSteps(plan: Plan, d: Data)
    requires Gullible(plan, d)
    ensures |plan.upgrade| == 1 && |plan.upgrade[0].statements| == 1
  {
  }
}
