/** Exactly which ClickHouse plans recover from an interruption: for each other one, tables that mislead. */
module ClickHouseStops {
  import opened Options
  import opened Plans
  import opened Journal
  import opened JournalSteps
  import opened HashChains
  import opened Connections
  import opened ClickHouseLog
  import opened ClickHouseData
  import opened ClickHousePlace
  import opened ClickHouseEngine
  import opened ClickHouseHistories

  // ---------- tables as one process writes them ----------

  /** One record more, after the last one of its key. */
  function Push<K(==), C>(h: Hashing<K, C>, records: seq<Record<K, C>>, key: K, content: C): (r: seq<Record<K, C>>)
    ensures |r| == |records| + 1 && r[..|records|] == records
    ensures r[|records|].body.key == key && r[|records|].body.content == content
  {
    var body := Body(key, content, |records| + 1, TailOf(h, records, key));
    records + [Record(body, h.hash(body))]
  }

  lemma PushInOrder<K, C>(h: Hashing<K, C>, records: seq<Record<K, C>>, key: K, content: C)
    requires InOrder(h, records, |records|)
    ensures InOrder(h, Push(h, records, key, content), |records| + 1)
  {
    var r := Push(h, records, key, content)[|records|];
    InsertInOrder(h, records, |records|, r);
  }

  lemma PushOf<K, C>(h: Hashing<K, C>, records: seq<Record<K, C>>, key: K, content: C, other: K)
    ensures
      var r := Push(h, records, key, content);
      Of(r, other) == if other == key then Of(records, key) + [r[|records|]] else Of(records, other)
  {
    var r := Push(h, records, key, content);
    OfPush(records, r[|records|], other);
    assert Of(records, other) + [] == Of(records, other);
  }

  lemma PushChecked(h: Hashing<Key, Checkpoint>, records: seq<CheckRecord>, key: Key, content: Checkpoint)
    ensures Checked(Push(h, records, key, content)) == Checked(records) + {key}
  {
    var r := Push(h, records, key, content);
    assert r == records + [r[|records|]];
  }

  // ---------- the journal ----------

  function RunRow(plan: Plan, runId: nat, direction: Direction, status: Status, start: Data): Run {
    Run(1, plan.checksum, status, runId, direction, NoError, false, start)
  }

  /** The first epoch, whose run number 1 died in this direction. */
  function StoppedRuns(h: RunHashing, plan: Plan, direction: Direction, start: Data): seq<RunRecord> {
    if direction == Upgrade then Push(h, [], 1, RunRow(plan, 1, Upgrade, Applying, start))
    else
      var first := Push(h, [], 1, RunRow(plan, 0, Upgrade, Applying, start));
      var done := Push(h, first, 1, RunRow(plan, 0, Upgrade, AppliedSuccess, start));
      Push(h, done, 1, RunRow(plan, 1, Rollback, Applying, start))
  }

  /** A sound journal of one epoch. */
  ghost predicate OneEpoch(h: RunHashing, runs: seq<RunRecord>) {
    && runs != [] && RunsSound(h, runs) && InOrder(h, runs, |runs|) && LastEpoch(runs) == 1
    && forall r :: r in runs ==> r.body.key == 1
  }

  lemma OpenedRuns(h: RunHashing, run: Run)
    requires Collisionless(h) && run.epoch == 1 && run.status == Applying
    ensures OneEpoch(h, Push(h, [], 1, run))
  {
    var runs := Push(h, [], 1, run);
    PushInOrder(h, [], 1, run);
    assert RunsSound(h, []);
    OpenSound(h, [], runs[0]);
    assert runs == [] + [runs[0]];
  }

  lemma FollowedRuns(h: RunHashing, runs: seq<RunRecord>, run: Run)
    requires OneEpoch(h, runs) && run.epoch == 1 && Allowed(runs[|runs| - 1].body.content, run)
    ensures OneEpoch(h, Push(h, runs, 1, run))
  {
    hide RunsSound, Allowed, InOrder;
    var more := Push(h, runs, 1, run);
    PushInOrder(h, runs, 1, run);
    assert Continues(h, runs[|runs| - 1], more[|runs|]);
    AppendSound(h, runs, runs[|runs| - 1], more[|runs|]);
    assert more == runs + [more[|runs|]];
  }

  ghost predicate RowsFit(runs: seq<RunRecord>, direction: Direction) {
    forall r :: r in runs ==>
      var run := r.body.content;
      && run.status in {Applying, AppliedSuccess} && !run.baseline
      && (run.status == AppliedSuccess || direction == Upgrade ==> run.direction == Upgrade)
      && (direction == Upgrade ==> run.status == Applying)
  }

  lemma StoppedRunsSound(h: RunHashing, plan: Plan, direction: Direction, start: Data)
    requires Collisionless(h)
    ensures
      var runs := StoppedRuns(h, plan, direction, start);
      && OneEpoch(h, runs) && Of(runs, 1) == runs
      && runs[|runs| - 1].body.content == RunRow(plan, 1, direction, Applying, start)
      && OneChecksum(runs) && runs[0].body.content.checksum == plan.checksum
      && (TurnedBack(runs, 1) <==> direction == Rollback) && RowsFit(runs, direction)
  {
    hide OneEpoch;
    var runs := StoppedRuns(h, plan, direction, start);
    if direction == Upgrade {
      OpenedRuns(h, RunRow(plan, 1, Upgrade, Applying, start));
    } else {
      OpenedRuns(h, RunRow(plan, 0, Upgrade, Applying, start));
      var first := Push(h, [], 1, RunRow(plan, 0, Upgrade, Applying, start));
      FollowedRuns(h, first, RunRow(plan, 0, Upgrade, AppliedSuccess, start));
      var done := Push(h, first, 1, RunRow(plan, 0, Upgrade, AppliedSuccess, start));
      FollowedRuns(h, done, RunRow(plan, 1, Rollback, Applying, start));
      assert runs[2] in runs;
    }
    EpochKeys(h, runs);
    OfSameKey(runs, 1);
  }

  lemma EpochKeys(h: RunHashing, runs: seq<RunRecord>)
    requires OneEpoch(h, runs)
    ensures forall r :: r in runs ==> r.body.key == 1
  {
  }

  // ---------- the checkpoints ----------

  function RowOf(plan: Plan, key: Key, runId: nat, mark: Mark): Checkpoint {
    var text := if StatementAt(plan, key).Some? then StatementAt(plan, key).value.text else "";
    Checkpoint(runId, Journal.Digest(key.direction, key.op, key.index, text), mark)
  }

  /** The checkpoints of statements that an earlier run had finished. */
  function DoneChecks(h: Hashing<Key, Checkpoint>, plan: Plan, keys: seq<Key>): seq<CheckRecord> {
    if keys == [] then []
    else
      var key := keys[|keys| - 1];
      var marked := Push(h, DoneChecks(h, plan, keys[..|keys| - 1]), key, RowOf(plan, key, 0, Pending));
      Push(h, marked, key, RowOf(plan, key, 0, Done))
  }

  ghost predicate Finished(h: Hashing<Key, Checkpoint>, plan: Plan, keys: seq<Key>, checks: seq<CheckRecord>) {
    && InOrder(h, checks, |checks|) && (forall k :: k in Checked(checks) <==> k in keys)
    && (forall k :: k in keys ==> LastDone(checks, k))
    && forall r :: r in checks ==>
         r.body.content.runId == 0 && r.body.content.digest == RowOf(plan, r.body.key, 0, Done).digest
  }

  lemma {:induction false} DoneChecksFinished(h: Hashing<Key, Checkpoint>, plan: Plan, keys: seq<Key>)
    ensures Finished(h, plan, keys, DoneChecks(h, plan, keys))
  {
    hide InOrder, Push, Of, StatementAt;
    if keys == [] {
      assert InOrder(h, DoneChecks(h, plan, []), 0) by {
        NothingInOrder(h);
      }
    } else {
      var key, rest := keys[|keys| - 1], keys[..|keys| - 1];
      DoneChecksFinished(h, plan, rest);
      FinishedPush(h, plan, rest, key, DoneChecks(h, plan, rest));
      assert keys == rest + [key];
    }
  }

  lemma NothingInOrder(h: Hashing<Key, Checkpoint>)
    ensures InOrder(h, [], 0)
  {
  }

  lemma FinishedPush(h: Hashing<Key, Checkpoint>, plan: Plan, keys: seq<Key>, key: Key, checks: seq<CheckRecord>)
    requires Finished(h, plan, keys, checks)
    ensures Finished(h, plan, keys + [key], Push(h, Push(h, checks, key, RowOf(plan, key, 0, Pending)), key, RowOf(plan, key, 0, Done)))
  {
    hide InOrder, Of, Checked, StatementAt, Push;
    var pending, done := RowOf(plan, key, 0, Pending), RowOf(plan, key, 0, Done);
    var marked := Push(h, checks, key, pending);
    var more := Push(h, marked, key, done);
    PushInOrder(h, checks, key, pending);
    PushInOrder(h, marked, key, done);
    PushChecked(h, checks, key, pending);
    PushChecked(h, marked, key, done);
    forall k | k in keys + [key] ensures LastDone(more, k) {
      PushOf(h, checks, key, pending, k);
      PushOf(h, marked, key, done, k);
    }
    forall r | r in more
      ensures r.body.content.runId == 0 && r.body.content.digest == RowOf(plan, r.body.key, 0, Done).digest
    {
      assert more == checks + [marked[|checks|]] + [more[|marked|]];
    }
  }

  /** All but the last statement finished by an earlier run, the last one marked by the run that died. */
  function StoppedChecks(h: Hashing<Key, Checkpoint>, plan: Plan, keys: seq<Key>): seq<CheckRecord>
    requires keys != []
  {
    var key := keys[|keys| - 1];
    Push(h, DoneChecks(h, plan, keys[..|keys| - 1]), key, RowOf(plan, key, 1, Pending))
  }

  /** FINAL shows this checkpoint as done by the earlier run. */
  ghost predicate ShownEarlier(checks: seq<CheckRecord>, key: Key) {
    Server.Shown(checks, key) && Of(checks, key) != [] && Final(Of(checks, key)).body.content.runId == 0
  }

  ghost predicate Stopped(h: Hashing<Key, Checkpoint>, plan: Plan, keys: seq<Key>, checks: seq<CheckRecord>)
    requires keys != []
  {
    var last := keys[|keys| - 1];
    && InOrder(h, checks, |checks|) && (forall k :: k in Checked(checks) <==> k in keys)
    && (forall r :: r in checks ==> r.body.content.digest == RowOf(plan, r.body.key, 0, Done).digest)
    && NoneDone(checks, last) && Of(checks, last) != [] && Final(Of(checks, last)).body.content.runId == 1
    && forall k :: k in keys && k != last ==> ShownEarlier(checks, k)
  }

  lemma StoppedChecksAre(h: Hashing<Key, Checkpoint>, plan: Plan, keys: seq<Key>)
    requires keys != [] && Distinct(keys)
    ensures Stopped(h, plan, keys, StoppedChecks(h, plan, keys))
  {
    hide InOrder, StatementAt, Push, Of, DoneChecks, Finished, ShownEarlier, Checked, RowOf, Final, NoneDone;
    var last, rest := keys[|keys| - 1], keys[..|keys| - 1];
    var before, row := DoneChecks(h, plan, rest), RowOf(plan, last, 1, Pending);
    var checks := Push(h, before, last, row);
    DoneChecksFinished(h, plan, rest);
    FinishedMeans(h, plan, rest, before);
    PushInOrder(h, before, last, row);
    PushChecked(h, before, last, row);
    assert keys == rest + [last];
    assert last !in rest;
    LastMarked(h, plan, before, last);
    forall k | k in keys && k != last ensures ShownEarlier(checks, k) {
      PushOf(h, before, last, row, k);
      FinishedShown(h, plan, rest, before, k);
      ShownSame(before, checks, k);
    }
  }

  lemma LastMarked(h: Hashing<Key, Checkpoint>, plan: Plan, before: seq<CheckRecord>, last: Key)
    requires last !in Checked(before)
    requires forall r :: r in before ==> r.body.content.digest == RowOf(plan, r.body.key, 0, Done).digest
    ensures
      var checks := Push(h, before, last, RowOf(plan, last, 1, Pending));
      && NoneDone(checks, last) && Of(checks, last) != [] && Final(Of(checks, last)).body.content.runId == 1
      && forall r :: r in checks ==> r.body.content.digest == RowOf(plan, r.body.key, 0, Done).digest
  {
    hide Push, Of, StatementAt;
    var row := RowOf(plan, last, 1, Pending);
    var checks := Push(h, before, last, row);
    assert checks == before + [checks[|before|]];
    NoneOf(before, last);
    PushOf(h, before, last, row, last);
    assert Of(checks, last) == [checks[|before|]];
    forall r | r in before ensures r.body.key != last {
      CheckedIn(before, r);
    }
  }

  lemma FinishedMeans(h: Hashing<Key, Checkpoint>, plan: Plan, keys: seq<Key>, checks: seq<CheckRecord>)
    requires Finished(h, plan, keys, checks)
    ensures InOrder(h, checks, |checks|) && forall k :: k in Checked(checks) <==> k in keys
    ensures forall r :: r in checks ==> r.body.content.digest == RowOf(plan, r.body.key, 0, Done).digest
  {
  }

  lemma FinishedShown(h: Hashing<Key, Checkpoint>, plan: Plan, keys: seq<Key>, checks: seq<CheckRecord>, k: Key)
    requires Finished(h, plan, keys, checks) && k in keys
    ensures ShownEarlier(checks, k)
  {
    hide InOrder, StatementAt;
    InOrderFinal(h, checks, |checks|, k);
    OfElements(checks, k);
  }

  lemma ShownSame(before: seq<CheckRecord>, checks: seq<CheckRecord>, k: Key)
    requires Of(checks, k) == Of(before, k) && ShownEarlier(before, k)
    ensures ShownEarlier(checks, k)
  {
  }

  lemma CheckedIn(checks: seq<CheckRecord>, r: CheckRecord)
    requires r in checks
    ensures r.body.key in Checked(checks)
  {
  }

  lemma NoneOf(checks: seq<CheckRecord>, key: Key)
    requires key !in Checked(checks)
    ensures Of(checks, key) == []
  {
    RowsAreChecked(checks, key);
  }

  // ---------- where the statements stand ----------

  lemma LineIsReviewed(plan: Plan, top: nat, q: nat)
    requires UniqueIds(plan.upgrade) && UniqueIds(plan.rollback) && top == 1 && q < |Line(plan, top)|
    ensures StatementAt(plan, Line(plan, top)[q]).Some?
    ensures forall h :: 0 <= h < q ==> Line(plan, top)[h] != Line(plan, top)[q]
  {
    hide Line, KeysBelow, Offset, StepKeys, UniqueIds;
    LineParts(plan, top);
    assert Line(plan, top - 1) == [] by {
      EmptyLine(plan);
    }
    var up := |Keys(plan, top, Upgrade)|;
    var d, p := if q < up then Upgrade else Rollback, if q < up then q else q - up;
    var j, i := KeysBelowIs(top, d, plan.Steps(d), |plan.Steps(d)|, p);
    InParts(Line(plan, top - 1), Keys(plan, top, Upgrade), Keys(plan, top, Rollback), p);
    IndexOfUnique(plan.Steps(d), j);
    forall h | 0 <= h < q ensures Line(plan, top)[h] != Line(plan, top)[q] {
      KeyNotBefore(plan, top, d, j, i, h);
    }
  }

  lemma EmptyLine(plan: Plan)
    ensures Line(plan, 0) == []
  {
  }

  /** The statements of the first epoch up to statement `i` of the step at `k`. */
  function StoppedKeys(plan: Plan, direction: Direction, k: nat, i: nat): (keys: seq<Key>)
    requires k < |plan.Steps(direction)| && 0 < i <= |plan.Steps(direction)[k].statements|
    ensures keys != [] && keys <= Line(plan, 1) && |keys| == Begins(plan, 1, direction) + Offset(plan.Steps(direction), k) + i
  {
    BlockFits(plan, 1, direction, k, i);
    Line(plan, 1)[..Begins(plan, 1, direction) + Offset(plan.Steps(direction), k) + i]
  }

  lemma StoppedKeysAre(plan: Plan, direction: Direction, k: nat, i: nat)
    requires k < |plan.Steps(direction)| && 0 < i <= |plan.Steps(direction)[k].statements|
    requires UniqueIds(plan.upgrade) && UniqueIds(plan.rollback)
    ensures
      var keys := StoppedKeys(plan, direction, k, i);
      && Distinct(keys) && (forall key :: key in keys ==> StatementAt(plan, key).Some?)
      && keys[|keys| - 1] == Key(1, direction, plan.Steps(direction)[k].id, i - 1)
  {
    hide Line, Begins, Offset, UniqueIds, StatementAt;
    var keys := StoppedKeys(plan, direction, k, i);
    LineAt(plan, 1, direction, k, i - 1);
    forall q | 0 <= q < |keys| ensures StatementAt(plan, keys[q]).Some? && forall h :: 0 <= h < q ==> keys[h] != keys[q] {
      LineIsReviewed(plan, 1, q);
    }
  }

  ghost function StoppedPlace(keys: seq<Key>): Place
    requires keys != []
  {
    Place(keys, {keys[|keys| - 1]}, {})
  }

  lemma StoppedLaid(runHash: RunHashing, checkHash: Hashing<Key, Checkpoint>, plan: Plan, direction: Direction, k: nat, i: nat, start: Data)
    requires k < |plan.Steps(direction)| && 0 < i <= |plan.Steps(direction)[k].statements|
    requires Collisionless(runHash) && UniqueIds(plan.upgrade) && UniqueIds(plan.rollback)
    ensures
      var keys := StoppedKeys(plan, direction, k, i);
      Laid(plan, StoppedRuns(runHash, plan, direction, start), StoppedChecks(checkHash, plan, keys), StoppedPlace(keys))
  {
    hide Line, Offset, UniqueIds, StatementAt, StoppedChecks, StoppedRuns, InOrder, Begins, Of, LastEpoch;
    var keys := StoppedKeys(plan, direction, k, i);
    var runs, checks := StoppedRuns(runHash, plan, direction, start), StoppedChecks(checkHash, plan, keys);
    StoppedRunsSound(runHash, plan, direction, start);
    StoppedKeysAre(plan, direction, k, i);
    StoppedChecksAre(checkHash, plan, keys);
    StoppedPhases(plan, direction, k, i, runs);
    forall r | r in checks ensures Matching(plan, r.body.key, r.body.content.digest) {
      CheckedIn(checks, r);
    }
  }

  lemma StoppedPhases(plan: Plan, direction: Direction, k: nat, i: nat, runs: seq<RunRecord>)
    requires k < |plan.Steps(direction)| && 0 < i <= |plan.Steps(direction)[k].statements|
    requires LastEpoch(runs) == 1 && (TurnedBack(runs, 1) <==> direction == Rollback)
    requires RowsFit(runs, direction)
    ensures Phases(plan, runs, StoppedPlace(StoppedKeys(plan, direction, k, i)))
  {
    hide Keys, LastEpoch, Offset;
    OffsetGrows(plan.Steps(direction), k, |plan.Steps(direction)|);
    KeysLength(plan, 1, direction);
    EmptyLine(plan);
  }

  // ---------- the server ----------

  /**
   * The database where a run died between the checkpoint of statement `i` of the step at `k` and the statement; an
   * earlier run had finished everything before it.
   */
  method StoppedServer(runHash: RunHashing, checkHash: Hashing<Key, Checkpoint>, start: Data, clock: seq<nat>, plan: Plan,
                       direction: Direction, k: nat, i: nat, ghost catalog: string -> Plan)
    returns (server: Server)
    requires k < |plan.Steps(direction)| && 0 < i <= |plan.Steps(direction)[k].statements|
    requires Collisionless(runHash) && UniqueIds(plan.upgrade) && UniqueIds(plan.rollback)
    requires plan == catalog(plan.checksum) && (direction == Rollback ==> !plan.irreversible)
    ensures fresh(server) && Interrupted(server, plan, direction) && StoppedAt(server, plan, direction, k, i)
    ensures LastMissing(server.place) && EntryOf(server, plan, direction) == EntryAt(plan, direction, start)
    ensures
      var steps := plan.Steps(direction);
      var short := Prefix(steps[k].statements, i - 1, RunSteps(steps, k, EntryAt(plan, direction, start)));
      Persuaded(server, plan, direction) <==> Convinced(steps, k, i, short)
  {
    hide RunSteps, Prefix, Line, Offset, UniqueIds, StatementAt, StoppedChecks, StoppedRuns, InOrder, Begins, Of, LastEpoch, Laid, Stands, RunsSound,
      Interrupted, StoppedAt, EntryOf, Convinced, Persuaded, OneEpoch, Stopped, Fold, Final;
    var keys := StoppedKeys(plan, direction, k, i);
    var last := keys[|keys| - 1];
    var runs, checks := StoppedRuns(runHash, plan, direction, start), StoppedChecks(checkHash, plan, keys);
    ghost var place := StoppedPlace(keys);
    StoppedRunsSound(runHash, plan, direction, start);
    OneEpochMeans(runHash, runs);
    StoppedKeysAre(plan, direction, k, i);
    StoppedChecksAre(checkHash, plan, keys);
    StoppedMeans(checkHash, plan, keys, checks);
    StoppedLaid(runHash, checkHash, plan, direction, k, i, start);
    StoppedStands(plan, keys, start);
    LaterInOrder(runHash, runs, |runs|, |runs| + |checks|);
    LaterInOrder(checkHash, checks, |checks|, |runs| + |checks|);
    server := new Server.Attach(runHash, checkHash, runs, checks, Fold(plan, keys, {last}, start), clock, |runs| + |checks|, 2,
                                catalog, start, [], place);
    StoppedIsInterrupted(server, plan, direction, k, i, start);
    StoppedEntry(server, plan, direction, k, i, start);
    AllOrAllButLast(server, plan, direction, k, i);
  }

  lemma OneEpochMeans(h: RunHashing, runs: seq<RunRecord>)
    requires OneEpoch(h, runs)
    ensures runs != [] && RunsSound(h, runs) && InOrder(h, runs, |runs|) && LastEpoch(runs) == 1
  {
  }

  lemma StoppedMeans(h: Hashing<Key, Checkpoint>, plan: Plan, keys: seq<Key>, checks: seq<CheckRecord>)
    requires keys != [] && Stopped(h, plan, keys, checks)
    ensures InOrder(h, checks, |checks|)
  {
  }

  lemma StoppedStands(plan: Plan, keys: seq<Key>, start: Data)
    requires keys != []
    ensures Stands(plan, StoppedPlace(keys), start, Fold(plan, keys, {keys[|keys| - 1]}, start))
  {
    hide Fold;
  }

  /** Where a direction of the first epoch begins. */
  ghost function EntryAt(plan: Plan, direction: Direction, start: Data): Data {
    if direction == Upgrade then start else RunAll(plan.upgrade, start)
  }

  /** The tables of such a server. */
  ghost predicate AsStopped(server: Server, plan: Plan, direction: Direction, k: nat, i: nat, start: Data)
    reads server
  {
    && k < |plan.Steps(direction)| && 0 < i <= |plan.Steps(direction)[k].statements|
    && var keys := StoppedKeys(plan, direction, k, i);
    && server.Valid() && server.Orderly() && server.faults == [] && plan == server.catalog(plan.checksum) && server.start == start
    && OneEpoch(server.runHash, server.runs) && TopLog(server.runs) != []
    && TopLog(server.runs)[|TopLog(server.runs)| - 1].body.content == RunRow(plan, 1, direction, Applying, start)
    && server.ThePlan() == plan && Stopped(server.checkHash, plan, keys, server.checks) && server.place == StoppedPlace(keys)
    && UniqueIds(plan.upgrade) && UniqueIds(plan.rollback) && (direction == Rollback ==> !plan.irreversible)
  }

  lemma StoppedLeft(server: Server, plan: Plan, direction: Direction, k: nat, i: nat, start: Data)
    requires AsStopped(server, plan, direction, k, i, start)
    ensures server.Readable() && server.Latest() == Some(RunRow(plan, 1, direction, Applying, start))
    ensures server.Left(1, 1) == {Key(1, direction, plan.Steps(direction)[k].id, i - 1)}
    ensures forall key :: key in Checked(server.checks) ==> Server.Shown(server.checks, key) || key in server.Left(1, 1)
  {
    hide Server.Valid, InOrder, Server.Readable, Server.Latest, StoppedKeys, UniqueIds, RunsSound, Server.Shown, Of, NoneDone, Final;
    ReadsLast(server);
    StoppedKeysAre(plan, direction, k, i);
  }

  lemma StoppedEntry(server: Server, plan: Plan, direction: Direction, k: nat, i: nat, start: Data)
    requires AsStopped(server, plan, direction, k, i, start)
    ensures LastEpoch(server.runs) > 0 && |server.place.intents| >= Begins(plan, LastEpoch(server.runs), direction)
    ensures EntryOf(server, plan, direction) == EntryAt(plan, direction, start)
  {
    hide Server.Valid, InOrder, RunsSound, Fold, Stopped, RunAll, UniqueIds, Keys, Of, Offset;
    var keys := StoppedKeys(plan, direction, k, i);
    var b := Begins(plan, 1, direction);
    StoppedKeysAre(plan, direction, k, i);
    LineParts(plan, 1);
    EmptyLine(plan);
    FoldAgrees(plan, keys[..b], {keys[|keys| - 1]}, {}, start);
    assert keys[..b] == if direction == Upgrade then [] else Keys(plan, 1, Upgrade);
    FoldNothing(plan, start);
    FoldIsWhole(plan, 1, Upgrade, start);
  }

  lemma StoppedIsInterrupted(server: Server, plan: Plan, direction: Direction, k: nat, i: nat, start: Data)
    requires AsStopped(server, plan, direction, k, i, start)
    ensures Interrupted(server, plan, direction) && StoppedAt(server, plan, direction, k, i)
    ensures LastMissing(server.place)
    ensures Persuaded(server, plan, direction) <==> Convinced(plan.Steps(direction), k, i, server.data)
  {
    hide Server.Valid, InOrder, Server.Readable, Server.Latest, UniqueIds, RunsSound, Server.Shown, Of, NoneDone, Final, Begins,
      Offset, Line, Server.Left, PassOn, Passes, Stopped, LastEpoch;
    StoppedLeft(server, plan, direction, k, i, start);
    StoppedKeysAre(plan, direction, k, i);
    IndexOfUnique(plan.Steps(direction), k);
  }

  // ---------- the exact condition ----------

  /**
   * A plan whose rest does not make up for the missing effect, while its guards pass, goes wrong: on this server
   * reconciliation and the retry end in a success that is not the whole direction. And with any other plan they are
   * right, here and, by `RetryInterrupted`, on every server that was stopped there.
   */
  method RetryStopped(runHash: RunHashing, checkHash: Hashing<Key, Checkpoint>, start: Data, clock: seq<nat>, plan: Plan,
                      direction: Direction, k: nat, i: nat, ghost catalog: string -> Plan)
    returns (server: Server, success: bool)
    requires k < |plan.Steps(direction)| && 0 < i <= |plan.Steps(direction)[k].statements|
    requires Collisionless(runHash) && UniqueIds(plan.upgrade) && UniqueIds(plan.rollback)
    requires plan == catalog(plan.checksum) && (direction == Rollback ==> !plan.irreversible)
    ensures
      var steps, entry := plan.Steps(direction), EntryAt(plan, direction, start);
      (success ==> server.data == RunAll(steps, entry)) <==> Recovers(steps, k, i, entry)
  {
    hide Interrupted, StoppedAt, RunAll, RunSteps, Prefix, Persuaded, ShortResult, EntryOf, Server.Valid, UniqueIds, Convinced;
    server := StoppedServer(runHash, checkHash, start, clock, plan, direction, k, i, catalog);
    success := RetryInterrupted(server, plan, direction, k, i);
  }
}
