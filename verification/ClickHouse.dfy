/** The ClickHouse engine: every command reads the journal, checks its chains, and appends. */
module ClickHouseEngine {
  import opened Options
  import opened Plans
  import opened Journal
  import opened JournalSteps
  import opened HashChains
  import opened Connections
  import opened ClickHouseLog
  import opened ClickHouseData
  import opened ClickHousePlace

  /** The chain is whole and its last record is one that nothing may follow. */
  ghost predicate Closed(h: RunHashing, log: seq<RunRecord>) {
    && log != [] && Chain(h, log)
    && (log[|log| - 1].body.content.status == RolledBack || Terminal(log[|log| - 1].body.content.status))
  }

  ghost function TopLog(runs: seq<RunRecord>): seq<RunRecord> {
    Of(runs, LastEpoch(runs))
  }

  /**
   * What one command does to the journal: it appends to the latest epoch, unless that is closed, or
   * opens the next one, which takes a whole chain that ends in a rollback and an explicit reapply.
   */
  ghost predicate Advanced(h: RunHashing, runs: seq<RunRecord>, runs': seq<RunRecord>, reapply: bool) {
    && runs <= runs'
    && (|| LastEpoch(runs') == LastEpoch(runs)
        || (LastEpoch(runs') == LastEpoch(runs) + 1 && (LastEpoch(runs) > 0 ==> reapply && EndsRolledBack(h, TopLog(runs)))))
    && (forall e: nat :: e < LastEpoch(runs') ==> Of(runs', e) == Of(runs, e))
    && (runs' != runs && LastEpoch(runs') == LastEpoch(runs) ==> !Closed(h, TopLog(runs)))
  }

  lemma NothingAdvanced(h: RunHashing, runs: seq<RunRecord>, reapply: bool)
    ensures Advanced(h, runs, runs, reapply)
  {
  }

  /** Appending to the epoch a command works in. */
  lemma AdvancedOn(h: RunHashing, runs: seq<RunRecord>, between: seq<RunRecord>, r: RunRecord, reapply: bool)
    requires Advanced(h, runs, between, reapply) && between != runs
    requires exists log :: Changes(between, between + [r], LastEpoch(between), log)
    ensures Advanced(h, runs, between + [r], reapply) && between + [r] != runs
  {
    hide Of, LastEpoch, EndsRolledBack, Closed;
  }

  /** A record that claims nothing about effects, or claims it truthfully. */
  lemma TruthfulPush(h: RunHashing, runs: seq<RunRecord>, runs': seq<RunRecord>, log: seq<RunRecord>, sent: seq<Key>)
    requires Changes(runs, runs', LastEpoch(runs'), log)
    requires
      var run := log[|log| - 1].body.content;
      ClaimsNoEffects(run) ==> Untouched(sent, LastEpoch(runs'), run.direction)
    ensures Truthful(h, runs', sent)
  {
  }

  /**
   * The script that stops a run at a statement `n` actions from now: either its checkpoint, the next action, takes
   * effect but is not heard of, or the statement itself, the action after that, fails without effect.
   */
  predicate Stops(faults: seq<Fault>, n: nat, last: Fault) {
    && faults != []
    && if n > 0 then faults[0].NoFault? && Stops(faults[1..], n - 1, last)
       else if last.FailsBefore? then faults == [NoFault, FailsBefore]
       else last.FailsAfter? && faults == [FailsAfter]
  }

  class Server {
    const runHash: RunHashing
    const checkHash: Hashing<Key, Checkpoint>
    var runs: seq<RunRecord>
    var checks: seq<CheckRecord>
    var data: Data
    var faults: seq<Fault>     // what the environment will do to the coming actions
    var clock: seq<nat>        // what the clock will show; it need not run forward
    var lastVersion: nat       // of this process
    var freshId: nat
    ghost const catalog: string -> Plan  // which plan a checksum stands for
    ghost const start: Data              // the user tables before the first run
    ghost var sent: seq<Key>             // every statement ever sent
    ghost var place: Place               // where the statements stand

    constructor (runHash: RunHashing, checkHash: Hashing<Key, Checkpoint>, data: Data, faults: seq<Fault>, clock: seq<nat>,
                 ghost catalog: string -> Plan)
      requires Collisionless(runHash)
      ensures Valid() && Orderly() && runs == [] && checks == [] && sent == [] && place == Place([], {}, {})
      ensures this.runHash == runHash && this.checkHash == checkHash && this.catalog == catalog
      ensures this.data == start == data && this.faults == faults && this.clock == clock
    {
      this.runHash, this.checkHash, this.catalog, start := runHash, checkHash, catalog, data;
      this.data, this.faults, this.clock := data, faults, clock;
      runs, checks, lastVersion, freshId, sent, place := [], [], 0, 0, [], Place([], {}, {});
    }

    /** A process that finds these tables, its own last version behind every record. */
    constructor Attach(runHash: RunHashing, checkHash: Hashing<Key, Checkpoint>, runs: seq<RunRecord>, checks: seq<CheckRecord>,
                       data: Data, clock: seq<nat>, lastVersion: nat, freshId: nat,
                       ghost catalog: string -> Plan, ghost start: Data, ghost sent: seq<Key>, ghost place: Place)
      requires RunsSound(runHash, runs) && SentOnce(checks, sent) && Truthful(runHash, runs, sent)
      requires
        var plan := catalog(if runs == [] then "" else runs[0].body.content.checksum);
        Laid(plan, runs, checks, place) && Stands(plan, place, start, data)
      requires InOrder(runHash, runs, lastVersion) && InOrder(checkHash, checks, lastVersion)
      ensures Valid() && Orderly() && this.runs == runs && this.checks == checks && this.data == data && this.place == place
      ensures this.runHash == runHash && this.checkHash == checkHash && this.catalog == catalog
      ensures this.start == start && faults == []
    {
      this.runHash, this.checkHash, this.catalog, this.start := runHash, checkHash, catalog, start;
      this.runs, this.checks, this.data, this.clock, this.lastVersion, this.freshId := runs, checks, data, clock, lastVersion, freshId;
      this.sent, this.place, faults := sent, place, [];
    }

    /** The plan whose checksum the journal bears. */
    ghost function ThePlan(): Plan
      reads this`runs
    {
      catalog(if runs == [] then "" else runs[0].body.content.checksum)
    }

    ghost predicate Valid()
      reads this
    {
      && RunsSound(runHash, runs) && SentOnce(checks, sent) && Truthful(runHash, runs, sent)
      && Laid(ThePlan(), runs, checks, place) && Stands(ThePlan(), place, start, data)
    }

    /** Both tables are as one process leaves them that never lost an insert. */
    ghost predicate Orderly()
      reads this`runs, this`checks, this`lastVersion
    {
      InOrder(runHash, runs, lastVersion) && InOrder(checkHash, checks, lastVersion)
    }

    method Draw() returns (fault: Fault)
      modifies this`faults
      ensures old(faults) == [] ==> fault == NoFault && faults == []
      ensures old(faults) != [] ==> fault == old(faults)[0] && faults == old(faults)[1..]
    {
      if faults == [] { return NoFault; }
      fault, faults := faults[0], faults[1..];
    }

    method Probe() returns (r: Signal)
      modifies this`faults
      ensures old(faults) == [] ==> r.Ok? && faults == []
      ensures forall n: nat, last :: n >= 1 && Stops(old(faults), n, last) ==> r.Ok? && Stops(faults, n - 1, last)
    {
      var fault := Draw();
      r := if fault.NoFault? then Ok else if fault.FailsBefore? || fault.FailsAfter? then Raised(OtherError) else Crashed;
    }

    /** The version of the next record: later than any of this process, and no earlier than the clock. */
    method DrawVersion() returns (version: nat)
      modifies this`clock, this`lastVersion
      ensures version == lastVersion > old(lastVersion)
      ensures old(clock) != [] ==> version >= old(clock)[0] && clock == old(clock)[1..]
    {
      var now := 0;
      if clock != [] {
        now, clock := clock[0], clock[1..];
      }
      lastVersion := NextVersion(lastVersion, now);
      version := lastVersion;
    }

    /** A run record and its event, in one action; an error can hide that it was inserted. */
    method AppendRun(previous: Option<RunRecord>, run: Run) returns (signal: Signal, r: RunRecord)
      modifies this`faults, this`clock, this`lastVersion, this`runs
      ensures r.body.key == run.epoch && r.body.content == run && r.checksum == runHash.hash(r.body)
      ensures r.body.previous == if previous.Some? then previous.value.checksum else runHash.empty
      ensures r.body.version == lastVersion > old(lastVersion)
      ensures runs == old(runs) || runs == old(runs) + [r]
      ensures signal.Ok? ==> runs == old(runs) + [r]
      ensures old(Orderly()) && r.body.previous == TailOf(runHash, old(runs), run.epoch) ==> Orderly()
      ensures old(faults) == [] ==> signal.Ok? && faults == []
      ensures forall n: nat, last :: n >= 1 && Stops(old(faults), n, last) ==> signal.Ok? && Stops(faults, n - 1, last)
    {
      var version := DrawVersion();
      var body := Body(run.epoch, run, version, if previous.Some? then previous.value.checksum else runHash.empty);
      r := Record(body, runHash.hash(body));
      var fault := Draw();
      if !fault.FailsBefore? && !fault.DiesBefore? {
        InsertedInOrder(runHash, runs, old(lastVersion), r);
        runs := runs + [r];
      }
      LaterInOrder(checkHash, checks, old(lastVersion), lastVersion);
      LaterInOrder(runHash, old(runs), old(lastVersion), lastVersion);
      signal := if fault.NoFault? then Ok else if fault.FailsBefore? || fault.FailsAfter? then Raised(OtherError) else Crashed;
    }

    /** A checkpoint record; a first one makes the statement intended. */
    method AppendCheck(previous: Option<CheckRecord>, key: Key, checkpoint: Checkpoint) returns (signal: Signal, r: CheckRecord)
      modifies this`faults, this`clock, this`lastVersion, this`checks, this`place
      ensures r.body.key == key && r.body.content == checkpoint && r.checksum == checkHash.hash(r.body)
      ensures r.body.previous == if previous.Some? then previous.value.checksum else checkHash.empty
      ensures (checks == old(checks) && place == old(place))
        || (checks == old(checks) + [r] && place == if previous.None? then Intended(old(place), key) else old(place))
      ensures signal.Ok? ==> checks == old(checks) + [r]
      ensures old(Orderly()) && r.body.previous == TailOf(checkHash, old(checks), key) ==> Orderly()
      ensures old(faults) == [] ==> signal.Ok? && faults == []
      ensures forall n: nat, last :: n >= 1 && Stops(old(faults), n, last) ==> signal.Ok? && Stops(faults, n - 1, last)
      ensures forall last :: Stops(old(faults), 0, last) ==>
        if last.FailsBefore? then signal.Ok? && faults == [FailsBefore]
        else signal.Raised? && faults == [] && checks == old(checks) + [r]
    {
      var version := DrawVersion();
      var body := Body(key, checkpoint, version, if previous.Some? then previous.value.checksum else checkHash.empty);
      r := Record(body, checkHash.hash(body));
      var fault := Draw();
      if !fault.FailsBefore? && !fault.DiesBefore? {
        InsertedInOrder(checkHash, checks, old(lastVersion), r);
        checks := checks + [r];
        if previous.None? {
          place := Intended(place, key);
        }
      }
      LaterInOrder(checkHash, old(checks), old(lastVersion), lastVersion);
      LaterInOrder(runHash, runs, old(lastVersion), lastVersion);
      signal := if fault.NoFault? then Ok else if fault.FailsBefore? || fault.FailsAfter? then Raised(OtherError) else Crashed;
    }

    /** Sending a statement: its effect is durable at once, whatever the caller is told. */
    method Send(statement: Statement, key: Key) returns (r: Signal)
      modifies this`faults, this`data, this`sent, this`place
      ensures sent == old(sent) + [key]
      ensures (data == old(data) && place == old(place)) || (data == statement.effect(old(data)) && place == Effected(old(place), key))
      ensures r.Ok? ==> data == statement.effect(old(data)) && place == Effected(old(place), key)
      ensures old(faults) == [] ==> r.Ok? && faults == []
      ensures old(faults) == [FailsBefore] ==> r.Raised? && faults == [] && data == old(data) && place == old(place)
    {
      sent := sent + [key];
      var fault := Draw();
      if !fault.FailsBefore? && !fault.DiesBefore? {
        data, place := statement.effect(data), Effected(place, key);
      }
      r := if fault.NoFault? then Ok else if fault.FailsBefore? || fault.FailsAfter? then Raised(OtherError) else Crashed;
    }

    method RunGuards(guards: seq<Data -> bool>) returns (r: Signal)
      modifies this`faults
      ensures r.Ok? ==> Passes(guards, data)
      ensures old(faults) == [] ==> faults == [] && !r.Crashed? && (Passes(guards, data) ==> r.Ok?)
      ensures forall n: nat, last :: n >= 1 && Stops(old(faults), n, last) && Passes(guards, data) ==> r.Ok? && Stops(faults, n - 1, last)
    {
      r := Probe();
      if r.Ok? && !Passes(guards, data) {
        r := Raised(OtherError);
      }
    }

    // ---------- reading ----------

    /** The records of the latest epoch pass the check. */
    ghost predicate Readable()
      reads this`runs, this`checks
    {
      runs != [] ==>
        && ChainsValid(runHash, OrderByVersion(TopLog(runs)))
        && ChainsValid(checkHash, OrderByVersion(ChecksOf(checks, LastEpoch(runs))))
    }

    /** The latest run, once the chains of its epoch have passed the check. */
    method ReadRun() returns (signal: Signal, existing: Option<RunRecord>)
      requires Valid()
      modifies this`faults
      ensures signal.Ok? && existing.None? ==> LastEpoch(runs) == 0
      ensures existing.Some? ==> LastEpoch(runs) > 0 && IsLast(existing.value)
      ensures existing.Some? ==> existing.value == Final(TopLog(runs))
      ensures signal.Ok? ==> Readable()
      ensures old(faults) == [] ==> faults == []
      ensures old(faults) == [] && Readable() ==> signal.Ok? && (LastEpoch(runs) > 0 ==> existing.Some?)
      ensures forall n: nat, last :: n >= 1 && Stops(old(faults), n, last) && runs == [] ==>
        signal.Ok? && existing.None? && Stops(faults, n - 1, last)
    {
      hide Of, LastEpoch, Chain, ChainsValid, Laid, Stands, SentOnce, Truthful, Stops, OrderByVersion, Final, Past, Sealed, Accepted;
      NoEpochYet(runs);
      existing := None;
      signal := Probe();
      if !signal.Ok? || runs == [] { return; }
      assert runs[0] in runs;
      SomeEpoch(runs, runs[0]);
      var log := Of(runs, LastEpoch(runs));
      var ok := ValidateChains(runHash, OrderByVersion(log));
      var epochChecks := ChecksOf(checks, LastEpoch(runs));
      var checksOk := ValidateChains(checkHash, OrderByVersion(epochChecks));
      if !ok || !checksOk {
        signal := Raised(OtherError);
        return;
      }
      ReadIsLast(log);
      existing := Some(Final(log));
    }

    /** The record is the latest epoch's last, and that epoch's chain is whole. */
    ghost predicate IsLast(r: RunRecord)
      reads this`runs
    {
      var log := TopLog(runs);
      log != [] && Chain(runHash, log) && r == log[|log| - 1] && r in runs && r.body.key == LastEpoch(runs) == r.body.content.epoch
    }

    /** One process that lost no insert reads what it wrote. */
    lemma OrderlyIsReadable()
      requires Orderly()
      ensures Readable()
    {
      OfInOrder(runHash, runs, lastVersion, LastEpoch(runs));
      InOrderReads(runHash, TopLog(runs), lastVersion);
      EpochInOrder(checkHash, checks, lastVersion, LastEpoch(runs));
      InOrderReads(checkHash, ChecksOf(checks, LastEpoch(runs)), lastVersion);
    }

    lemma ReadIsLast(log: seq<RunRecord>)
      requires Valid() && LastEpoch(runs) > 0 && log == TopLog(runs)
      requires ChainsValid(runHash, OrderByVersion(log))
      ensures log != [] && IsLast(Final(log))
    {
      assert log != [];
      assert EpochSound(runHash, runs, LastEpoch(runs));
      OfIn(runs, LastEpoch(runs));
      ValidOneKey(runHash, log, LastEpoch(runs));
      AcceptedIsWhole(runHash, log);
    }

    // ---------- one command's run ----------

    /** `run` is the record this process appended last, unless the chain has been forked. */
    ghost predicate Holds(run: RunRecord, epoch: nat, direction: Direction)
      reads this`runs
    {
      && run in runs && run.body.key == LastEpoch(runs) == epoch == run.body.content.epoch
      && run.body.content.direction == direction
      && run.body.content.status in {Applying, AppliedSuccess}
    }

    /** If the chain of the latest epoch is whole, this is its last record. */
    ghost predicate Newest(run: RunRecord)
      reads this`runs
    {
      Chain(runHash, TopLog(runs)) ==> TopLog(runs) != [] && TopLog(runs)[|TopLog(runs)| - 1] == run
    }

    ghost predicate Tracks(run: RunRecord)
      reads this`runs
    {
      run.body.content.status == Applying && Newest(run)
    }

    /** A statement of this direction may be intended now. */
    ghost predicate May(direction: Direction)
      reads this`runs, this`place
    {
      Within(ThePlan(), runs, place, direction)
    }

    ghost predicate Backed(run: Run)
      reads this`runs, this`place
    {
      LastEpoch(runs) > 0 && Backs(ThePlan(), LastEpoch(runs), place, run)
    }

    /** In an orderly log the newest record is the one to name. */
    lemma NewestIsTail(run: RunRecord)
      requires Orderly() && Newest(run) && run in runs && run.body.key == LastEpoch(runs)
      ensures run.checksum == TailOf(runHash, runs, LastEpoch(runs))
    {
      ValidHasChain(runHash, runs, LastEpoch(runs));
      TailIsEnd(runHash, runs, LastEpoch(runs));
    }

    /** Following the held record with an allowed one. */
    method Follow(run: RunRecord, next: Run, ghost before: seq<RunRecord>, ghost reapply: bool) returns (signal: Signal, r: RunRecord)
      requires Valid() && run in runs && run.body.key == LastEpoch(runs) == next.epoch && Allowed(run.body.content, next)
      requires ClaimsNoEffects(next) ==> Untouched(sent, next.epoch, next.direction)
      requires Backed(next)
      requires Advanced(runHash, before, runs, reapply) && before != runs
      modifies this`faults, this`clock, this`lastVersion, this`runs
      ensures Valid() && Advanced(runHash, before, runs, reapply) && before != runs
      ensures LastEpoch(runs) == old(LastEpoch(runs)) && old(runs) <= runs && ThePlan() == old(ThePlan())
      ensures old(May(next.direction)) ==> May(next.direction)
      ensures r.body.key == next.epoch && r.body.content == next
      ensures signal.Ok? ==> r in runs && Newest(r)
      ensures old(faults) == [] ==> signal.Ok? && faults == []
      ensures old(Orderly()) && old(Newest(run)) ==> Orderly()
      ensures signal.Ok? ==> TopLog(runs) != [] && TopLog(runs)[|TopLog(runs)| - 1] == r
      ensures forall n: nat, last :: n >= 1 && Stops(old(faults), n, last) ==> signal.Ok? && Stops(faults, n - 1, last)
    {
      hide RunsSound, Of, LastEpoch, Allowed, Advanced, Changes, SentOnce, Laid, Stands, Stops, InOrder, Backs, Truthful, Within;
      if Orderly() && Newest(run) {
        NewestIsTail(run);
      }
      ghost var earlier := runs;
      signal, r := AppendRun(Some(run), next);
      if runs != earlier {
        assert Continues(runHash, run, r);
        AppendSound(runHash, earlier, run, r);
        ghost var log := Of(earlier, LastEpoch(earlier)) + [r];
        ChangesTop(earlier, runs, LastEpoch(earlier), log);
        TruthfulPush(runHash, earlier, runs, log, sent);
        AdvancedOn(runHash, before, earlier, r, reapply);
        AllowedChecksum(run.body.content, next);
        RunAppended(earlier, r, run, next.direction);
      }
    }

    /** What a further record of the latest epoch leaves of the plan and its progress. */
    lemma RunAppended(earlier: seq<RunRecord>, r: RunRecord, run: RunRecord, d: Direction)
      requires runs == earlier + [r] && run in earlier && LastEpoch(runs) == LastEpoch(earlier) > 0
      requires r.body.content.checksum == run.body.content.checksum && r.body.key == LastEpoch(earlier)
      requires earlier != [] && ThePlan() == catalog(earlier[0].body.content.checksum)
      requires Laid(ThePlan(), earlier, checks, place) && Backs(ThePlan(), LastEpoch(earlier), place, r.body.content)
      ensures Laid(ThePlan(), runs, checks, place)
      ensures Within(ThePlan(), earlier, place, d) ==> Within(ThePlan(), runs, place, d)
    {
      hide LastEpoch, Backs, Tabled, Phases, InLine;
      assert OneChecksum(earlier);
      RunLaid(ThePlan(), earlier, checks, place, r);
    }
  
    /** Opening the next epoch. */
    method Open(run: Run, ghost plan: Plan, ghost reapply: bool) returns (signal: Signal, r: RunRecord)
      requires Valid() && run.epoch == LastEpoch(runs) + 1 && run.status == Applying && run.direction == Upgrade
      requires LastEpoch(runs) > 0 ==> reapply && EndsRolledBack(runHash, TopLog(runs))
      requires plan == catalog(run.checksum) && (runs != [] ==> run.checksum == runs[0].body.content.checksum)
      modifies this`faults, this`clock, this`lastVersion, this`runs
      ensures Valid() && Advanced(runHash, old(runs), runs, reapply)
      ensures signal.Ok? ==>
        && Holds(r, run.epoch, run.direction) && Tracks(r) && runs != old(runs) && r.body.content == run
        && ThePlan() == plan && May(Upgrade) && Reaching(Upgrade) && Behind(Upgrade) == 0
      ensures old(faults) == [] ==> signal.Ok? && faults == []
      ensures old(Orderly()) ==> Orderly()
      ensures forall n: nat, last :: n >= 1 && Stops(old(faults), n, last) ==> signal.Ok? && Stops(faults, n - 1, last)
    {
      hide RunsSound, Of, LastEpoch, Allowed, Changes, SentOnce, EndsRolledBack, Closed, Laid, Stands, Stops, InOrder, Truthful;
      ghost var earlier := runs;
      NothingNamed(run.epoch);
      signal, r := AppendRun(None, run);
      if runs != earlier {
        assert Opens(runHash, earlier, r);
        OpenSound(runHash, earlier, r);
        ChangesTop(earlier, runs, run.epoch, [r]);
        TruthfulPush(runHash, earlier, runs, [r], sent);
        OpenAdvances(runHash, earlier, runs, r, reapply);
        EpochOpened(earlier, r, plan);
      } else {
        NothingAdvanced(runHash, runs, reapply);
      }
    }

    /** An epoch still to be opened has no record to name. */
    lemma NothingNamed(epoch: nat)
      requires RunsSound(runHash, runs) && epoch == LastEpoch(runs) + 1
      ensures TailOf(runHash, runs, epoch) == runHash.empty
    {
      assert Of(runs, epoch) == [];
      TailIsEnd(runHash, runs, epoch);
    }

    /** What opening an epoch leaves of the plan and its progress. */
    lemma EpochOpened(earlier: seq<RunRecord>, r: RunRecord, plan: Plan)
      requires runs == earlier + [r] && RunsSound(runHash, earlier) && LastEpoch(runs) == LastEpoch(earlier) + 1 == r.body.key
      requires r.body.content.direction == Upgrade && r.body.content.status == Applying
      requires LastEpoch(earlier) > 0 ==> EndsRolledBack(runHash, TopLog(earlier))
      requires plan == catalog(r.body.content.checksum)
      requires earlier != [] ==> r.body.content.checksum == earlier[0].body.content.checksum
      requires earlier == [] ==> Laid(catalog(""), earlier, checks, place) && Stands(catalog(""), place, start, data)
      requires earlier != [] ==>
        var plan := catalog(earlier[0].body.content.checksum); Laid(plan, earlier, checks, place) && Stands(plan, place, start, data)
      ensures Laid(ThePlan(), runs, checks, place) && Stands(ThePlan(), place, start, data)
      ensures ThePlan() == plan && Within(plan, runs, place, Upgrade) && |place.intents| == Begins(plan, LastEpoch(runs), Upgrade)
      ensures Reaching(Upgrade)
    {
      hide Tabled, Phases, Fold;
      if earlier == [] {
        EmptyPlace(catalog(""), plan, earlier, checks, place);
        FoldEmpty(plan, place.missing, start);
        FoldEmpty(catalog(""), place.missing, start);
      } else {
        assert runs[0] == earlier[0];
        AllBelow(earlier);
        BackedByRollback(earlier, plan);
      }
      OpenLaid(plan, earlier, checks, place, r);
    }

    lemma BackedByRollback(earlier: seq<RunRecord>, plan: Plan)
      requires Phases(plan, earlier, place)
      ensures LastEpoch(earlier) > 0 && EndsRolledBack(runHash, TopLog(earlier)) ==>
        ReachedTo(place, Ends(plan, LastEpoch(earlier), Rollback))
    {
      hide Chain;
      var top, log := LastEpoch(earlier), TopLog(earlier);
      if top > 0 && EndsRolledBack(runHash, log) {
        OfIn(earlier, top);
        var last := log[|log| - 1];
        assert last in log;
        assert Backs(plan, top, place, last.body.content);
      }
    }

    /** Going on in the latest epoch: its chain is whole and its last record is the one that was read. */
    method Resume(existing: RunRecord, run: Run, ghost reapply: bool) returns (signal: Signal, r: RunRecord)
      requires Valid() && IsLast(existing) && run.epoch == LastEpoch(runs) && run.status == Applying
      requires Allowed(existing.body.content, run) && (run.direction == Upgrade ==> existing.body.content.direction == Upgrade)
      modifies this`faults, this`clock, this`lastVersion, this`runs
      ensures Valid() && Advanced(runHash, old(runs), runs, reapply)
      ensures signal.Ok? ==>
        && Holds(r, run.epoch, run.direction) && Tracks(r) && runs != old(runs) && r.body.content == run
        && ThePlan() == old(ThePlan()) && May(run.direction) && Reaching(run.direction)
      ensures LastEpoch(runs) == old(LastEpoch(runs))
      ensures old(faults) == [] ==> signal.Ok? && faults == []
      ensures old(Orderly()) ==> Orderly()
    {
      hide RunsSound, Of, LastEpoch, Changes, SentOnce, Laid, Stands, Stops, InOrder, Truthful, Backs, Within;
      ghost var earlier := runs;
      RunIsBacked(existing);
      BacksNext(ThePlan(), LastEpoch(runs), place, existing.body.content, run);
      if Orderly() {
        NewestIsTail(existing);
      }
      signal, r := AppendRun(Some(existing), run);
      if runs != earlier {
        ghost var log := TopLog(earlier) + [r];
        assert Continues(runHash, existing, r);
        AppendSound(runHash, earlier, existing, r);
        ChangesTop(earlier, runs, LastEpoch(earlier), log);
        TruthfulPush(runHash, earlier, runs, log, sent);
        assert !Closed(runHash, TopLog(earlier));
        ResumeAdvances(runHash, earlier, runs, log, reapply);
        RunAppended(earlier, r, existing, run.direction);
        ResumedMay(earlier, existing, r);
      } else {
        NothingAdvanced(runHash, runs, reapply);
      }
    }

    /** Every record of the latest epoch is backed. */
    lemma RunIsBacked(run: RunRecord)
      requires Valid() && run in runs && run.body.key == LastEpoch(runs)
      ensures LastEpoch(runs) > 0 && Backed(run.body.content) && run.body.content.checksum == runs[0].body.content.checksum
    {
      hide Tabled, Backs, InLine, Line, Keys, Chain;
      SomeEpoch(runs, run);
    }

    /** The direction that was resumed has been reached, and no other one begun. */
    lemma ResumedMay(earlier: seq<RunRecord>, existing: RunRecord, r: RunRecord)
      requires runs == earlier + [r] && LastEpoch(runs) == LastEpoch(earlier) > 0 && r.body.key == LastEpoch(runs)
      requires Laid(ThePlan(), runs, checks, place) && RunsSound(runHash, earlier)
      requires TopLog(earlier) != [] && Chain(runHash, TopLog(earlier)) && existing == TopLog(earlier)[|TopLog(earlier)| - 1]
      requires r.body.content.direction == Upgrade ==> existing.body.content.direction == Upgrade
      ensures May(r.body.content.direction) && Reaching(r.body.content.direction)
    {
      hide Tabled, InLine, Line, Keys, Chain, LastEpoch, Of, Begins, Grounded, EndsRolledBack, Past, Sealed, Collisionless, OneChecksum;
      var top, d, log := LastEpoch(runs), r.body.content.direction, TopLog(earlier);
      assert r in runs;
      assert Backs(ThePlan(), top, place, r.body.content);
      if d == Upgrade && TurnedBack(runs, top) {
        var other :| other in runs && other.body.key == top && other.body.content.direction == Rollback;
        assert other in earlier;
        OfIn(earlier, top);
        assert other in log;
        var i :| 0 <= i < |log| && log[i] == other;
        assert EpochSound(runHash, earlier, top);
        UpgradeOnly(runHash, log, i);
      }
    }

    /** How many statements of this direction of the latest epoch are intended. */
    ghost function Behind(direction: Direction): nat
      reads this`runs, this`place
    {
      if LastEpoch(runs) > 0 && |place.intents| >= Begins(ThePlan(), LastEpoch(runs), direction)
      then |place.intents| - Begins(ThePlan(), LastEpoch(runs), direction) else 0
    }

    /** Every statement before this direction of the latest epoch is there. */
    ghost predicate Reaching(direction: Direction)
      reads this`runs, this`place
    {
      LastEpoch(runs) > 0 && ReachedTo(place, Begins(ThePlan(), LastEpoch(runs), direction))
    }

    /** The run that a command finds. */
    ghost function Latest(): Option<Run>
      reads this`runs
    {
      var log := TopLog(runs);
      if log == [] then None else Some(Final(log).body.content)
    }

    ghost function Admitted(plan: Plan, direction: Direction, reapply: bool): Admission
      reads this`runs
    {
      Admit(Latest(), plan.checksum, direction, reapply)
    }

    /** The command is well formed, the journal passes its check, and it admits the run. */
    ghost predicate Startable(plan: Plan, direction: Direction, reapply: bool)
      reads this`runs, this`checks
    {
      && UniqueIds(plan.Steps(direction)) && (direction == Rollback ==> !reapply && !plan.irreversible)
      && Readable() && (Admitted(plan, direction, reapply).Open? || Admitted(plan, direction, reapply).Resume?)
    }

    lemma FoundIsLatest(existing: Option<RunRecord>)
      requires Valid()
      requires existing.None? ==> LastEpoch(runs) == 0
      requires existing.Some? ==> IsLast(existing.value) && existing.value == Final(TopLog(runs))
      ensures Latest() == if existing.Some? then Some(existing.value.body.content) else None
      ensures existing.Some? ==> existing.value.body.content.epoch == LastEpoch(runs)
    {
      assert Of(runs, 0) == [];
    }

    /** Whether a command may start, and the record that starts it. */
    method Start(plan: Plan, direction: Direction, baseline: bool, reapply: bool)
      returns (signal: Signal, started: Option<RunRecord>)
      requires Valid() && plan == catalog(plan.checksum)
      modifies this`faults, this`clock, this`lastVersion, this`runs, this`freshId
      ensures Valid() && Advanced(runHash, old(runs), runs, reapply)
      ensures signal.Ok? && started.Some? ==>
        && runs != old(runs) && Started(started.value, plan, direction)
        && old(Startable(plan, direction, reapply)) && IsEpoch(old(Admitted(plan, direction, reapply)), LastEpoch(runs))
      ensures signal.Ok? && started.None? ==> old(Admitted(plan, direction, reapply)).AlreadyApplied?
      ensures old(faults) == [] ==> faults == []
      ensures old(faults) == [] && old(Startable(plan, direction, reapply)) ==> signal.Ok? && started.Some?
      ensures old(faults) == [] && old(Orderly()) ==> Orderly()
      ensures forall n: nat, last :: n >= 3 && Stops(old(faults), n, last) && old(runs) == [] && direction == Upgrade && UniqueIds(plan.upgrade) ==>
        signal.Ok? && started.Some? && Stops(faults, n - 3, last) && (old(Orderly()) ==> Orderly()) && LastEpoch(runs) == 1
    {
      hide RunsSound, Of, LastEpoch, Changes, SentOnce, Closed, Chain, Truthful, Advanced, UniqueIds, Readable,
        Latest, Final, Admit, Laid, Stands, Stops, InOrder, Started;
      NothingAdvanced(runHash, runs, reapply);
      started := None;
      if !UniqueIds(plan.Steps(direction)) || (direction == Rollback && (reapply || plan.irreversible)) {
        return Raised(OtherError), None;
      }
      var existing: Option<RunRecord>;
      signal, existing := ReadRun();
      if !signal.Ok? { return; }
      FoundIsLatest(existing);
      var latest := if existing.Some? then Some(existing.value.body.content) else None;
      var admission := Admit(latest, plan.checksum, direction, reapply);
      FirstIsAdmitted(plan.checksum, direction, reapply);
      if admission.AlreadyApplied? { return Ok, None; }
      if admission.Refused? { return Raised(OtherError), None; }
      signal, started := StartAt(plan, direction, baseline, reapply, existing, admission);
    }

    /** Nothing was run yet: an upgrade may start. */
    lemma FirstIsAdmitted(checksum: string, direction: Direction, reapply: bool)
      ensures direction == Upgrade ==> Admit(None, checksum, direction, reapply) == Admission.Open(1)
    {
    }

    /** A run has started: its record is the newest of the journal of its plan, and its direction may go on. */
    ghost predicate Started(run: RunRecord, plan: Plan, direction: Direction)
      reads this`runs, this`place
    {
      && Holds(run, LastEpoch(runs), direction) && Tracks(run) && run.body.content.checksum == plan.checksum
      && ThePlan() == plan && May(direction) && Reaching(direction)
    }

    /** The record that starts an admitted run. */
    method StartAt(plan: Plan, direction: Direction, baseline: bool, ghost reapply: bool,
                   existing: Option<RunRecord>, admission: Admission)
      returns (signal: Signal, started: Option<RunRecord>)
      requires Valid() && plan == catalog(plan.checksum)
      requires if existing.Some? then IsLast(existing.value) else LastEpoch(runs) == 0
      requires admission == Admit(if existing.Some? then Some(existing.value.body.content) else None, plan.checksum, direction, reapply)
      requires admission.Resume? || admission.Open?
      modifies this`faults, this`clock, this`lastVersion, this`runs, this`freshId
      ensures Valid() && Advanced(runHash, old(runs), runs, reapply)
      ensures signal.Ok? ==>
        && started.Some? && runs != old(runs) && Started(started.value, plan, direction)
        && IsEpoch(admission, LastEpoch(runs))
      ensures old(faults) == [] ==> signal.Ok? && faults == []
      ensures old(Orderly()) ==> Orderly()
      ensures forall n: nat, last :: n >= 2 && Stops(old(faults), n, last) && existing.None? ==>
        signal.Ok? && Stops(faults, n - 2, last)
    {
      hide RunsSound, Of, LastEpoch, Changes, SentOnce, Closed, Chain, Truthful, Advanced, Laid, Stands, Stops, InOrder;
      hide Within, ReachedTo, Newest;
      NothingAdvanced(runHash, runs, reapply);
      started := None;
      :- Probe();
      ghost var rest := faults;
      var r;
      PlanOfExisting(existing);
      if admission.Resume? {
        var run := existing.value.body.content
          .(status := Applying, runId := freshId, direction := direction, error := NoError);
        freshId := freshId + 1;
        signal, r := Resume(existing.value, run, reapply);
        if !signal.Ok? { return; }
      } else {
        var run := Run(admission.epoch, plan.checksum, Applying, freshId, direction, NoError, baseline, data);
        freshId := freshId + 1;
        if existing.Some? {
          OpensAfterRollback(existing.value.body.content, plan.checksum, direction, reapply);
        }
        assert faults == rest;
        signal, r := Open(run, plan, reapply);
        if !signal.Ok? { return; }
        // The event that records the reapply is written on its own.
        if existing.Some? {
          :- Probe();
        }
      }
      started := Some(r);
    }

    /** All records bear one checksum. */
    lemma PlanOfExisting(existing: Option<RunRecord>)
      requires Valid()
      requires if existing.Some? then IsLast(existing.value) else LastEpoch(runs) == 0
      ensures existing.Some? ==> runs != [] && existing.value.body.content.checksum == runs[0].body.content.checksum
      ensures existing.None? ==> runs == []
    {
      hide Tabled, Phases, InLine, Chain;
      if runs != [] {
        SomeEpoch(runs, runs[0]);
      }
    }

    // ---------- sending ----------

    /** Any checkpoint of this epoch and direction. */
    predicate Marked(epoch: nat, direction: Direction)
      reads this`checks
    {
      exists k :: k in Checked(checks) && k.epoch == epoch && k.direction == direction
    }

    static function KeyOf(run: RunRecord, op: string, index: int): Key {
      Key(run.body.key, run.body.content.direction, op, index)
    }

    /** A run is under way in its plan. */
    ghost predicate Running(run: RunRecord, plan: Plan)
      reads this
    {
      Valid() && UniqueIds(plan.Steps(run.body.content.direction)) && Started(run, plan, run.body.content.direction)
    }

    /** The place in the line of statement `i` of the step at `k`. */
    ghost function PlaceOf(run: RunRecord, plan: Plan, k: nat, i: nat): nat
      requires run.body.key > 0 && k <= |plan.Steps(run.body.content.direction)|
    {
      Begins(plan, run.body.key, run.body.content.direction) + Offset(plan.Steps(run.body.content.direction), k) + i
    }

    /** FINAL shows the checkpoint as done. */
    static ghost predicate Shown(checks: seq<CheckRecord>, key: Key) {
      Of(checks, key) != [] && Final(Of(checks, key)).body.content.mark == Done
    }

    /** None of the first `n` checkpoints of the step is open. */
    static ghost predicate NoneOpen(checks: seq<CheckRecord>, epoch: nat, direction: Direction, step: Step, n: nat) {
      forall h :: 0 <= h < n && Key(epoch, direction, step.id, h) in Checked(checks) ==> Shown(checks, Key(epoch, direction, step.id, h))
    }

    /** One statement: skipped when its checkpoint is done, refused when it is open, otherwise marked and sent. */
    method SendOnce(run: RunRecord, ghost plan: Plan, ghost k: nat, op: string, index: nat, statement: Statement, possible: bool)
      returns (signal: Signal, pending: Option<CheckRecord>, effects: bool)
      requires Running(run, plan) && k < |plan.Steps(run.body.content.direction)|
      requires var step := plan.Steps(run.body.content.direction)[k];
        op == step.id && index < |step.statements| && statement == step.statements[index]
      requires ReachedTo(place, PlaceOf(run, plan, k, index))
      requires !possible ==> Untouched(sent, run.body.key, run.body.content.direction)
      modifies this`faults, this`clock, this`lastVersion, this`checks, this`data, this`sent, this`place
      ensures Running(run, plan) && old(sent) <= sent && old(place.intents) <= place.intents
      ensures possible ==> effects
      ensures !effects ==> Untouched(sent, run.body.key, run.body.content.direction)
      ensures signal.Ok? ==>
        if |old(place.intents)| > PlaceOf(run, plan, k, index)
        then place == old(place) && data == old(data) && checks == old(checks) && pending.None?
        else
          && Intends(old(place), place, KeyOf(run, op, index)) && data == statement.effect(old(data)) && pending.Some?
          && pending.value.body.key == KeyOf(run, op, index) && checks == old(checks) + [pending.value]
          && pending.value.body.content.digest == Digest(run.body.content.direction, op, index, statement.text)
      ensures signal.Ok? ==> ReachedTo(place, PlaceOf(run, plan, k, index) + 1)
      ensures signal.Ok? && KeyOf(run, op, index) in Checked(old(checks)) ==> Shown(old(checks), KeyOf(run, op, index))
      ensures |checks| >= |old(checks)|
      ensures checks == old(checks) || exists r: CheckRecord :: r.body.key == KeyOf(run, op, index) && checks == old(checks) + [r]
      ensures checks != old(checks) ==> KeyOf(run, op, index) !in Checked(old(checks))
      ensures KeyOf(run, op, index) in Checked(old(checks)) <==> |old(place.intents)| > PlaceOf(run, plan, k, index)
      ensures old(faults) == [] ==> faults == [] && !signal.Crashed? && (effects <==> possible || |checks| > |old(checks)|)
      ensures old(faults) == [] && (KeyOf(run, op, index) in Checked(old(checks)) ==> Shown(old(checks), KeyOf(run, op, index))) ==> signal.Ok?
      ensures old(faults) == [] && old(Orderly()) ==> Orderly()
      ensures forall last :: Stops(old(faults), 1, last) && KeyOf(run, op, index) !in Checked(old(checks)) ==>
        && signal.Raised? && faults == [] && (old(Orderly()) ==> Orderly()) && (effects <==> possible || last.FailsBefore?) && data == old(data)
        && OnlyMarked(old(checks), checks, old(place), place, KeyOf(run, op, index), run.body.content.runId)
    {
      hide RunsSound, Of, LastEpoch, Chain, Laid, Stands, Stops, InOrder, Truthful, SentOnce, Final, Checked, Started, UniqueIds,
        Begins, Offset, ReachedTo;
      effects, pending := possible, None;
      var direction := run.body.content.direction;
      var key := KeyOf(run, op, index);
      var digest := Digest(direction, op, index, statement.text);
      RunningMeans(run, plan);
      NextKey(run, plan, k, index);
      var rows := Of(checks, key);
      if rows != [] {
        RowsAreChecked(checks, key);
        DigestsMatch(key, plan, statement);
        var row := Final(rows).body.content;
        signal := if row.digest == digest && row.mark == Done then Ok else Raised(OtherError);
        if signal.Ok? {
          DonePasses(run, plan, k, index, key);
        }
        return;
      }
      NoRows(checks, key);
      signal := Probe();
      if !signal.Ok? { return; }
      signal, pending, effects := MarkAndSend(run, plan, k, key, digest, index, statement, possible);
    }

    /** Only the checkpoint of this statement was added, and its effect is missing. */
    static ghost predicate OnlyMarked(checks: seq<CheckRecord>, checks': seq<CheckRecord>, p: Place, q: Place, key: Key, runId: nat) {
      && |checks'| == |checks| + 1 && checks'[..|checks|] == checks && checks'[|checks|].body.key == key
      && checks'[|checks|].body.content.runId == runId && checks'[|checks|].body.content.mark == Pending && q == Intended(p, key)
    }

    /** One statement more is intended, and its effect is there. */
    static ghost predicate Intends(p: Place, q: Place, key: Key) {
      q == Place(p.intents + [key], p.missing - {key}, p.closed)
    }

    lemma RunningMeans(run: RunRecord, plan: Plan)
      requires Running(run, plan)
      ensures plan == ThePlan() && run.body.key == LastEpoch(runs) > 0 && Laid(plan, runs, checks, place)
    {
    }

    /** A key of the line is the next one, or it is there already. */
    lemma NextKey(run: RunRecord, plan: Plan, k: nat, index: nat)
      requires Running(run, plan) && k < |plan.Steps(run.body.content.direction)|
      requires index < |plan.Steps(run.body.content.direction)[k].statements| && ReachedTo(place, PlaceOf(run, plan, k, index))
      ensures
        var key := KeyOf(run, plan.Steps(run.body.content.direction)[k].id, index);
        && (key in Checked(checks) <==> |place.intents| > PlaceOf(run, plan, k, index))
        && (key !in Checked(checks) ==>
              |place.intents| == PlaceOf(run, plan, k, index) && !place.Dangling() && key !in sent && key !in place.closed)
        && StatementAt(plan, key) == Some(plan.Steps(run.body.content.direction)[k].statements[index])
    {
      hide RunsSound, Stands, Truthful, Phases, Of, Begins, Offset, UniqueIds, Chain;
      var d, top := run.body.content.direction, LastEpoch(runs);
      var key, p := KeyOf(run, plan.Steps(d)[k].id, index), PlaceOf(run, plan, k, index);
      assert top > 0 && run.body.key == top && UniqueIds(plan.Steps(d));
      LineAt(plan, top, d, k, index);
      IndexOfUnique(plan.Steps(d), k);
      assert place.intents == Line(plan, top)[..|place.intents|];
      if |place.intents| > p {
        assert place.intents[p] == key;
      } else if key in place.intents {
        var q :| 0 <= q < |place.intents| && place.intents[q] == key;
        KeyNotBefore(plan, top, d, k, index, q);
      }
    }

    /** Every stored checkpoint has the reviewed digest. */
    lemma DigestsMatch(key: Key, plan: Plan, statement: Statement)
      requires Valid() && plan == ThePlan() && Of(checks, key) != [] && StatementAt(plan, key) == Some(statement)
      ensures Final(Of(checks, key)).body.content.digest == Digest(key.direction, key.op, key.index, statement.text)
    {
      hide RunsSound, Stands, Truthful, Phases, Chain;
      OfElements(checks, key);
      assert Final(Of(checks, key)) in Of(checks, key);
    }

    /** A checkpoint that is shown as done leaves nothing dangling. */
    lemma DonePasses(run: RunRecord, plan: Plan, k: nat, index: nat, key: Key)
      requires Running(run, plan) && k < |plan.Steps(run.body.content.direction)|
      requires index < |plan.Steps(run.body.content.direction)[k].statements|
      requires key == KeyOf(run, plan.Steps(run.body.content.direction)[k].id, index)
      requires Shown(checks, key) && |place.intents| > PlaceOf(run, plan, k, index)
      ensures ReachedTo(place, PlaceOf(run, plan, k, index) + 1)
    {
      hide RunsSound, Stands, Truthful, Phases, Begins, Offset, UniqueIds, Chain;
      var d, top, p := run.body.content.direction, LastEpoch(runs), PlaceOf(run, plan, k, index);
      LineAt(plan, top, d, k, index);
      assert place.intents == Line(plan, top)[..|place.intents|];
      assert place.intents[p] == key;
      OfElements(checks, key);
      assert Final(Of(checks, key)) in checks;
    }

    /** The checkpoint, the statement, and the caller's hook. */
    method MarkAndSend(run: RunRecord, ghost plan: Plan, ghost k: nat, key: Key, digest: Journal.Digest, ghost index: nat,
                       statement: Statement, possible: bool)
      returns (signal: Signal, pending: Option<CheckRecord>, effects: bool)
      requires Running(run, plan) && k < |plan.Steps(run.body.content.direction)|
      requires var step := plan.Steps(run.body.content.direction)[k];
        index < |step.statements| && statement == step.statements[index] && key == KeyOf(run, step.id, index)
      requires digest == Digest(key.direction, key.op, key.index, statement.text) && StatementAt(plan, key) == Some(statement)
      requires |place.intents| == PlaceOf(run, plan, k, index) && !place.Dangling()
      requires key !in Checked(checks) && key !in sent && Of(checks, key) == [] && key !in place.closed
      requires !possible ==> Untouched(sent, run.body.key, run.body.content.direction)
      modifies this`faults, this`clock, this`lastVersion, this`checks, this`data, this`sent, this`place
      ensures Running(run, plan) && old(sent) <= sent && old(place.intents) <= place.intents
      ensures possible ==> effects
      ensures !effects ==> Untouched(sent, run.body.key, run.body.content.direction)
      ensures signal.Ok? ==>
        && Intends(old(place), place, key) && data == statement.effect(old(data)) && pending.Some?
        && pending.value.body.key == key && pending.value.body.content.digest == digest && checks == old(checks) + [pending.value]
        && ReachedTo(place, PlaceOf(run, plan, k, index) + 1)
      ensures checks == old(checks) || exists r: CheckRecord :: r.body.key == key && checks == old(checks) + [r]
      ensures old(faults) == [] ==> signal.Ok? && faults == [] && effects
      ensures old(faults) == [] && old(Orderly()) ==> Orderly()
      ensures forall last :: Stops(old(faults), 0, last) ==>
        && signal.Raised? && faults == [] && (old(Orderly()) ==> Orderly()) && (effects <==> possible || last.FailsBefore?) && data == old(data)
        && OnlyMarked(old(checks), checks, old(place), place, key, run.body.content.runId)
    {
      hide RunsSound, Of, LastEpoch, Chain, Laid, Stands, Stops, InOrder, Truthful, Checked, Begins, Offset, UniqueIds, StatementAt;
      effects, pending := possible, None;
      ghost var earlier, p := checks, place;
      FirstOfKey(key);
      var r;
      signal, r := AppendCheck(None, key, Checkpoint(run.body.content.runId, digest, Pending));
      if checks != earlier {
        NowIntended(run.body.content.direction, plan, k, index, earlier, p, r);
        SentStill(earlier, r, sent);
      }
      if !signal.Ok? { return; }
      effects := true;
      ghost var marked, before := place, data;
      SentNow(earlier, checks, r, sent, key);
      signal := Send(statement, key);
      if place != marked {
        NowEffected(plan, marked, before, key, statement, run.body.content.direction);
      }
      StillTruthful(run);
      if !signal.Ok? { return; }
      // The mutation check and the caller's hook.
      signal := Probe();
      if !signal.Ok? { return; }
      pending := Some(r);
    }

    lemma FirstOfKey(key: Key)
      requires Of(checks, key) == []
      ensures TailOf(checkHash, checks, key) == checkHash.empty
    {
      TailIsEnd(checkHash, checks, key);
    }

    lemma NowIntended(d: Direction, plan: Plan, k: nat, index: nat, earlier: seq<CheckRecord>, p: Place, r: CheckRecord)
      requires Laid(plan, runs, earlier, p) && Stands(plan, p, start, data) && Within(plan, runs, p, d) && SentOnce(earlier, sent)
      requires k < |plan.Steps(d)| && index < |plan.Steps(d)[k].statements| && UniqueIds(plan.Steps(d))
      requires |p.intents| == Begins(plan, LastEpoch(runs), d) + Offset(plan.Steps(d), k) + index && !p.Dangling()
      requires r.body.key == Key(LastEpoch(runs), d, plan.Steps(d)[k].id, index)
      requires r.body.key !in Checked(earlier) && r.body.key !in p.closed
      requires r.body.content.mark == Pending && Matching(plan, r.body.key, r.body.content.digest)
      requires checks == earlier + [r] && place == Intended(p, r.body.key)
      ensures Laid(plan, runs, checks, place) && Stands(plan, place, start, data) && Within(plan, runs, place, d)
    {
      hide Phases, InLine, OneChecksum, Stands, Matching, Begins, Offset, UniqueIds, LastEpoch;
      IntendLaid(plan, runs, earlier, p, d, k, index, r);
      IntendStands(plan, p, start, data, r.body.key);
      IntendedWithin(plan, p, d, k, index, r.body.key);
    }

    lemma IntendedWithin(plan: Plan, p: Place, d: Direction, k: nat, index: nat, key: Key)
      requires Within(plan, runs, p, d) && k < |plan.Steps(d)| && index < |plan.Steps(d)[k].statements|
      requires |p.intents| == Begins(plan, LastEpoch(runs), d) + Offset(plan.Steps(d), k) + index
      ensures Within(plan, runs, Intended(p, key), d)
    {
      hide LastEpoch;
      LineAt(plan, LastEpoch(runs), d, k, index);
    }

    lemma NowEffected(plan: Plan, marked: Place, before: Data, key: Key, statement: Statement, d: Direction)
      requires Laid(plan, runs, checks, marked) && Stands(plan, marked, start, before) && Within(plan, runs, marked, d)
      requires marked.intents != [] && marked.intents[|marked.intents| - 1] == key && key in marked.missing && key !in marked.closed
      requires StatementAt(plan, key) == Some(statement)
      requires place == Effected(marked, key) && data == statement.effect(before)
      ensures Laid(plan, runs, checks, place) && Stands(plan, place, start, data) && Within(plan, runs, place, d)
    {
      hide Phases, InLine, OneChecksum, Stands, StatementAt, LastEpoch, Begins;
      EffectLaid(plan, runs, checks, marked, key);
      EffectStands(plan, marked, start, before, key, statement);
    }

    /** While a run is applying, the journal claims nothing about effects. */
    lemma StillTruthful(run: RunRecord)
      requires Tracks(run)
      ensures Truthful(runHash, runs, sent)
    {
    }

    /** The checkpoints that were there stay as they were, and only some of this epoch and direction were added. */
    static ghost predicate Leaves(before: seq<CheckRecord>, checks: seq<CheckRecord>, epoch: nat, direction: Direction) {
      && (forall k :: k in Checked(before) ==> k in Checked(checks) && Of(checks, k) == Of(before, k))
      && OnlyOf(before, checks, epoch, direction)
    }

    static ghost predicate OnlyOf(before: seq<CheckRecord>, checks: seq<CheckRecord>, epoch: nat, direction: Direction) {
      forall k :: k in Checked(checks) ==> k in Checked(before) || (k.epoch == epoch && k.direction == direction)
    }

    lemma LeavesAll(before: seq<CheckRecord>, epoch: nat, direction: Direction)
      ensures Leaves(before, before, epoch, direction)
    {
    }

    lemma LeavesMore(before: seq<CheckRecord>, checks: seq<CheckRecord>, r: CheckRecord, epoch: nat, direction: Direction)
      requires Leaves(before, checks, epoch, direction)
      requires r.body.key.epoch == epoch && r.body.key.direction == direction && r.body.key !in Checked(before)
      ensures Leaves(before, checks + [r], epoch, direction)
    {
      assert Checked(checks + [r]) == Checked(checks) + {r.body.key};
      forall k | k in Checked(before) ensures Of(checks + [r], k) == Of(before, k) {
        OfPush(checks, r, k);
        assert Of(checks, k) + [] == Of(checks, k);
      }
    }

    lemma LeavesJoin(a: seq<CheckRecord>, b: seq<CheckRecord>, c: seq<CheckRecord>, epoch: nat, direction: Direction)
      requires Leaves(a, b, epoch, direction) && Leaves(b, c, epoch, direction)
      ensures Leaves(a, c, epoch, direction)
    {
      hide Of, Checked;
    }

    lemma OnlyJoin(a: seq<CheckRecord>, b: seq<CheckRecord>, c: seq<CheckRecord>, epoch: nat, direction: Direction)
      requires OnlyOf(a, b, epoch, direction) && OnlyOf(b, c, epoch, direction)
      ensures OnlyOf(a, c, epoch, direction)
    {
      hide Checked;
    }

    /** The checkpoints this step has just got, one record each; their effects are there. */
    static ghost predicate Fresh(pending: seq<CheckRecord>, before: seq<CheckRecord>, checks: seq<CheckRecord>, p: Place,
                                 run: RunRecord, op: string, c: nat) {
      forall h :: 0 <= h < |pending| ==>
        && pending[h].body.key == KeyOf(run, op, c + h) && pending[h].body.key !in Checked(before)
        && Of(checks, pending[h].body.key) == [pending[h]] && pending[h].body.key !in p.missing
    }

    lemma FreshMore(pending: seq<CheckRecord>, before: seq<CheckRecord>, checks: seq<CheckRecord>, p: Place, q: Place,
                    run: RunRecord, op: string, c: nat, r: CheckRecord)
      requires Fresh(pending, before, checks, p, run, op, c)
      requires r.body.key == KeyOf(run, op, c + |pending|) && r.body.key !in Checked(checks) && r.body.key !in Checked(before)
      requires q.missing <= p.missing && r.body.key !in q.missing
      ensures Fresh(pending + [r], before, checks + [r], q, run, op, c)
    {
      var longer := pending + [r];
      forall h | 0 <= h < |longer| ensures Of(checks + [r], longer[h].body.key) == [longer[h]] {
        OfPush(checks, r, longer[h].body.key);
        if h < |pending| {
          assert Of(checks, longer[h].body.key) + [] == [longer[h]];
        } else {
          UncheckedHasNone(checks, r.body.key);
        }
      }
    }

    lemma UncheckedHasNone(checks: seq<CheckRecord>, key: Key)
      requires key !in Checked(checks)
      ensures Of(checks, key) == []
    {
      if Of(checks, key) != [] {
        RowsAreChecked(checks, key);
      }
    }

    /** How many statements of the step at `k` have a checkpoint. */
    ghost function HadOf(plan: Plan, direction: Direction, k: nat): nat
      requires k < |plan.Steps(direction)|
      reads this`runs, this`place
    {
      Had(plan.Steps(direction), k, Behind(direction))
    }

    /** The checkpoints that a step already has are shown as done. */
    ghost predicate StepShown(run: RunRecord, plan: Plan, k: nat)
      requires k < |plan.Steps(run.body.content.direction)|
      reads this`runs, this`place, this`checks
    {
      forall h :: 0 <= h < HadOf(plan, run.body.content.direction, k) ==>
        Shown(checks, KeyOf(run, plan.Steps(run.body.content.direction)[k].id, h))
    }

    /** One step: its guards, its statements, and the marks that it is done. */
    method SendStep(run: RunRecord, ghost plan: Plan, ghost k: nat, step: Step, possible: bool) returns (signal: Signal, effects: bool)
      requires Running(run, plan) && k < |plan.Steps(run.body.content.direction)| && step == plan.Steps(run.body.content.direction)[k]
      requires ReachedTo(place, PlaceOf(run, plan, k, 0))
      requires !possible ==> Untouched(sent, run.body.key, run.body.content.direction)
      modifies this`faults, this`clock, this`lastVersion, this`checks, this`data, this`sent, this`place
      ensures Running(run, plan) && old(sent) <= sent && old(place.intents) <= place.intents
      ensures !effects ==> Untouched(sent, run.body.key, run.body.content.direction)
      ensures OnlyOf(old(checks), checks, run.body.key, run.body.content.direction)
      ensures signal.Ok? ==> Leaves(old(checks), checks, run.body.key, run.body.content.direction)
      ensures signal.Ok? ==> NoneOpen(old(checks), run.body.key, run.body.content.direction, step, |step.statements|)
      ensures signal.Ok? ==>
        var c := old(HadOf(plan, run.body.content.direction, k));
        && Passes(step.before, old(data)) && Passes(step.after, data)
        && data == From(step.statements, c, |step.statements|, old(data))
        && forall h :: c <= h < |step.statements| ==> LastDone(checks, KeyOf(run, step.id, h))
      ensures signal.Ok? ==>
        && ReachedTo(place, PlaceOf(run, plan, k, |step.statements|))
        && |place.intents| == Max(|old(place.intents)|, PlaceOf(run, plan, k, |step.statements|))
        && place.missing <= old(place).missing && place.closed == old(place).closed
      ensures |checks| >= |old(checks)|
      ensures old(faults) == [] ==> faults == [] && !signal.Crashed? && (effects <==> possible || |checks| > |old(checks)|)
      ensures
        var c := old(HadOf(plan, run.body.content.direction, k));
        var pass := Passes(step.before, old(data)) && Passes(step.after, From(step.statements, c, |step.statements|, old(data)));
        old(faults) == [] && old(StepShown(run, plan, k)) && pass ==> signal.Ok?
      ensures old(faults) == [] && old(Orderly()) ==> Orderly()
      ensures
        var plain := step.statements != [] && |old(place.intents)| == PlaceOf(run, plan, k, 0) && Passes(step.before, old(data));
        forall last :: Stops(old(faults), 2, last) && plain ==>
          && signal.Raised? && faults == [] && (old(Orderly()) ==> Orderly()) && (effects <==> possible || last.FailsBefore?) && data == old(data)
          && OnlyMarked(old(checks), checks, old(place), place, KeyOf(run, step.id, 0), run.body.content.runId)
    {
      hide RunsSound, Of, LastEpoch, Chain, Laid, Stands, Stops, InOrder, Truthful, SentOnce, Final, Checked, Started, UniqueIds,
        Begins, Offset, Passes, LastDone, Leaves, From, Shown, OnlyMarked, Untouched, StepShown, NoneOpen;
      effects := possible;
      RunningMeans(run, plan);
      ghost var c := HadOf(plan, run.body.content.direction, k);
      LeavesAll(checks, run.body.key, run.body.content.direction);
      LeavesOnly(checks, checks, run.body.key, run.body.content.direction);
      signal := RunGuards(step.before);
      if !signal.Ok? { return; }
      var pending;
      signal, pending, effects := SendStatements(run, plan, k, step, effects, c);
      if !signal.Ok? { return; }
      LeavesOnly(old(checks), checks, run.body.key, run.body.content.direction);
      signal := RunGuards(step.after);
      if !signal.Ok? { return; }
      // Recording the identity edges.
      signal := Probe();
      if !signal.Ok? { return; }
      assert forall q :: 0 <= q < |pending| ==> pending[q].body.key == KeyOf(run, step.id, c + q);
      ghost var earlier := checks;
      signal := MarkSteps(run, plan, step.id, c, pending, old(checks));
      SameKeysOnly(old(checks), earlier, checks, run.body.key, run.body.content.direction);
      forall h | signal.Ok? && c <= h < |step.statements| ensures LastDone(checks, KeyOf(run, step.id, h)) {
        assert pending[h - c].body.key == KeyOf(run, step.id, c + (h - c));
      }
    }

    lemma SameKeysOnly(before: seq<CheckRecord>, earlier: seq<CheckRecord>, checks: seq<CheckRecord>, epoch: nat, direction: Direction)
      requires OnlyOf(before, earlier, epoch, direction) && Checked(checks) == Checked(earlier)
      ensures OnlyOf(before, checks, epoch, direction)
    {
    }

    /** The statements of one step, in order; `pending` are the checkpoints that are new. */
    method SendStatements(run: RunRecord, ghost plan: Plan, ghost k: nat, step: Step, possible: bool, ghost c: nat)
      returns (signal: Signal, pending: seq<CheckRecord>, effects: bool)
      requires Running(run, plan) && k < |plan.Steps(run.body.content.direction)| && step == plan.Steps(run.body.content.direction)[k]
      requires ReachedTo(place, PlaceOf(run, plan, k, 0)) && c == HadOf(plan, run.body.content.direction, k)
      requires !possible ==> Untouched(sent, run.body.key, run.body.content.direction)
      modifies this`faults, this`clock, this`lastVersion, this`checks, this`data, this`sent, this`place
      ensures Running(run, plan) && old(sent) <= sent && old(place.intents) <= place.intents
      ensures !effects ==> Untouched(sent, run.body.key, run.body.content.direction)
      ensures OnlyOf(old(checks), checks, run.body.key, run.body.content.direction)
      ensures signal.Ok? ==>
        && Leaves(old(checks), checks, run.body.key, run.body.content.direction)
        && data == From(step.statements, c, |step.statements|, old(data))
        && |pending| == |step.statements| - c && Fresh(pending, old(checks), checks, place, run, step.id, c)
        && ReachedTo(place, PlaceOf(run, plan, k, |step.statements|))
        && |place.intents| == Max(|old(place.intents)|, PlaceOf(run, plan, k, |step.statements|))
        && place.missing <= old(place).missing && place.closed == old(place).closed
      ensures signal.Ok? ==> NoneOpen(old(checks), run.body.key, run.body.content.direction, step, |step.statements|)
      ensures |checks| >= |old(checks)| && (signal.Ok? ==> |checks| == |old(checks)| + |pending|)
      ensures old(faults) == [] ==> !signal.Crashed? && (effects <==> possible || |checks| > |old(checks)|)
      ensures old(faults) == [] ==> faults == [] && (old(StepShown(run, plan, k)) ==> signal.Ok?)
      ensures old(faults) == [] && old(Orderly()) ==> Orderly()
      ensures
        var plain := step.statements != [] && |old(place.intents)| == PlaceOf(run, plan, k, 0);
        forall last :: Stops(old(faults), 1, last) && plain ==>
          && signal.Raised? && faults == [] && (old(Orderly()) ==> Orderly()) && (effects <==> possible || last.FailsBefore?) && data == old(data)
          && OnlyMarked(old(checks), checks, old(place), place, KeyOf(run, step.id, 0), run.body.content.runId)
    {
      hide RunsSound, Of, LastEpoch, Chain, Laid, Stands, Stops, InOrder, Truthful, SentOnce, Final, Checked, Started, UniqueIds,
        Begins, Offset, LastDone, Leaves, From, Shown, OnlyMarked, Untouched, Fresh, OnlyOf, NoneOpen;
      NoneOpenYet(checks, run.body.key, run.body.content.direction, step);
      effects := possible;
      RunningMeans(run, plan);
      LeavesAll(checks, run.body.key, run.body.content.direction);
      HadIs(run, plan, k);
      FromNothing(step.statements, c, data);
      HadChecked(run, plan, k);
      NoneFresh(checks, checks, place, run, step.id, c);
      pending := [];
      for i := 0 to |step.statements|
        invariant Running(run, plan) && old(sent) <= sent && old(place.intents) <= place.intents && ReachedTo(place, PlaceOf(run, plan, k, i))
        invariant !effects ==> Untouched(sent, run.body.key, run.body.content.direction)
        invariant Leaves(old(checks), checks, run.body.key, run.body.content.direction)
        invariant |place.intents| == Max(|old(place.intents)|, PlaceOf(run, plan, k, i))
        invariant place.missing <= old(place).missing && place.closed == old(place).closed
        invariant data == From(step.statements, c, i, old(data)) && NoneOpen(old(checks), run.body.key, run.body.content.direction, step, i)
        invariant |pending| == (if i > c then i - c else 0) && Fresh(pending, old(checks), checks, place, run, step.id, c)
        invariant |checks| == |old(checks)| + |pending| && (old(faults) == [] ==> faults == [] && (effects <==> possible || |checks| > |old(checks)|))
        invariant old(faults) == [] && old(Orderly()) ==> Orderly()
        invariant forall last :: Stops(old(faults), 1, last) && i == 0 ==>
          Stops(faults, 1, last) && effects == possible && checks == old(checks) && place == old(place) && (old(Orderly()) ==> Orderly())
        invariant forall last :: Stops(old(faults), 1, last) && |old(place.intents)| == PlaceOf(run, plan, k, 0) ==> i == 0
      {
        ghost var earlier, before := checks, place;
        if i < c && Shown(old(checks), KeyOf(run, step.id, i)) {
          ShownStill(old(checks), checks, run, KeyOf(run, step.id, i));
        }
        var added;
        signal, added, effects := SendOnce(run, plan, k, step.id, i, step.statements[i], effects);
        if signal.Ok? {
          NoneOpenNext(old(checks), earlier, run.body.key, run.body.content.direction, step, i);
        }
        LeavesOnce(old(checks), earlier, checks, run, KeyOf(run, step.id, i));
        LeavesOnly(old(checks), checks, run.body.key, run.body.content.direction);
        if !signal.Ok? { return; }
        FromNext(step.statements, c, i, old(data));
        if added.Some? {
          FreshMore(pending, old(checks), earlier, before, place, run, step.id, c, added.value);
          pending := pending + [added.value];
        }
      }
      LeavesOnly(old(checks), checks, run.body.key, run.body.content.direction);
      signal := Ok;
    }

    lemma NoneFresh(before: seq<CheckRecord>, checks: seq<CheckRecord>, p: Place, run: RunRecord, op: string, c: nat)
      ensures Fresh([], before, checks, p, run, op, c)
    {
    }

    static function Max(a: nat, b: nat): nat {
      if a > b then a else b
    }

    lemma FromNothing(statements: seq<Statement>, c: nat, d: Data)
      ensures From(statements, c, 0, d) == d
    {
    }

    lemma FromNext(statements: seq<Statement>, c: nat, i: nat, d: Data)
      requires i < |statements|
      ensures From(statements, c, i + 1, d) == if i < c then d else statements[i].effect(From(statements, c, i, d))
      ensures i <= c ==> From(statements, c, i, d) == d
    {
    }

    lemma HadIs(run: RunRecord, plan: Plan, k: nat)
      requires Started(run, plan, run.body.content.direction) && k < |plan.Steps(run.body.content.direction)|
      requires ReachedTo(place, PlaceOf(run, plan, k, 0))
      ensures
        var c := HadOf(plan, run.body.content.direction, k);
        forall i: nat :: i < |plan.Steps(run.body.content.direction)[k].statements| ==>
          (i < c <==> |place.intents| > PlaceOf(run, plan, k, i))
      ensures HadOf(plan, run.body.content.direction, k) <= |plan.Steps(run.body.content.direction)[k].statements|
    {
      hide LastEpoch, Offset, Within;
    }

    lemma HadChecked(run: RunRecord, plan: Plan, k: nat)
      requires Running(run, plan) && k < |plan.Steps(run.body.content.direction)| && ReachedTo(place, PlaceOf(run, plan, k, 0))
      ensures forall h :: 0 <= h < HadOf(plan, run.body.content.direction, k) ==>
        KeyOf(run, plan.Steps(run.body.content.direction)[k].id, h) in Checked(checks)
    {
      hide RunsSound, Stands, Laid, Truthful, SentOnce, UniqueIds, Checked, Of, Final, Begins, Offset, Started;
      var d := run.body.content.direction;
      RunningMeans(run, plan);
      HadIs(run, plan, k);
      forall h: nat | h < HadOf(plan, d, k) ensures KeyOf(run, plan.Steps(d)[k].id, h) in Checked(checks) {
        HadReached(run, plan, k, h);
        NextKey(run, plan, k, h);
      }
    }

    lemma NoneOpenYet(checks: seq<CheckRecord>, epoch: nat, direction: Direction, step: Step)
      ensures NoneOpen(checks, epoch, direction, step, 0)
    {
    }

    lemma NoneOpenNext(before: seq<CheckRecord>, checks: seq<CheckRecord>, epoch: nat, direction: Direction, step: Step, i: nat)
      requires Leaves(before, checks, epoch, direction) && NoneOpen(before, epoch, direction, step, i)
      requires var key := Key(epoch, direction, step.id, i); key in Checked(checks) ==> Shown(checks, key)
      ensures NoneOpen(before, epoch, direction, step, i + 1)
    {
    }

    lemma NoneOpenBefore(before: seq<CheckRecord>, checks: seq<CheckRecord>, epoch: nat, direction: Direction, step: Step)
      requires Leaves(before, checks, epoch, direction) && NoneOpen(checks, epoch, direction, step, |step.statements|)
      ensures NoneOpen(before, epoch, direction, step, |step.statements|)
    {
    }

    /** A checkpoint is one of a statement of the plan. */
    lemma NoneOpenAll(plan: Plan, checks: seq<CheckRecord>, p: Place, epoch: nat, direction: Direction)
      requires Tabled(plan, checks, p)
      requires forall j :: 0 <= j < |plan.Steps(direction)| ==>
        NoneOpen(checks, epoch, direction, plan.Steps(direction)[j], |plan.Steps(direction)[j].statements|)
      ensures AllShown(checks, epoch, direction)
    {
      hide Shown, Distinct, NoneDone;
      forall k | k in Checked(checks) && k.epoch == epoch && k.direction == direction ensures Shown(checks, k) {
        var j := IndexOf(plan.Steps(direction), k.op);
        assert Matching(plan, k, CheckedDigest(checks, k));
        assert NoneOpen(checks, epoch, direction, plan.Steps(direction)[j], |plan.Steps(direction)[j].statements|);
        assert k == Key(epoch, direction, plan.Steps(direction)[j].id, k.index);
      }
    }

    static ghost function CheckedDigest(checks: seq<CheckRecord>, key: Key): (digest: Journal.Digest)
      requires key in Checked(checks)
      ensures exists r :: r in checks && r.body.key == key && r.body.content.digest == digest
    {
      var r :| r in checks && r.body.key == key;
      r.body.content.digest
    }

    lemma ShownStill(before: seq<CheckRecord>, checks: seq<CheckRecord>, run: RunRecord, key: Key)
      requires Leaves(before, checks, run.body.key, run.body.content.direction) && key in Checked(before) && Shown(before, key)
      ensures Shown(checks, key)
    {
    }

    lemma LeavesOnce(before: seq<CheckRecord>, earlier: seq<CheckRecord>, checks: seq<CheckRecord>, run: RunRecord, key: Key)
      requires Leaves(before, earlier, run.body.key, run.body.content.direction)
      requires key.epoch == run.body.key && key.direction == run.body.content.direction
      requires checks == earlier || exists r: CheckRecord :: r.body.key == key && checks == earlier + [r]
      requires checks != earlier ==> key !in Checked(earlier)
      ensures Leaves(before, checks, run.body.key, run.body.content.direction)
      ensures checks != earlier ==> key !in Checked(before)
    {
      hide Of, Checked;
      if checks != earlier {
        var r: CheckRecord :| r.body.key == key && checks == earlier + [r];
        assert key !in Checked(before);
        LeavesMore(before, earlier, r, run.body.key, run.body.content.direction);
      }
    }

    /** The statements of a step are marked done, one record after the other. */
    method MarkSteps(run: RunRecord, ghost plan: Plan, ghost op: string, ghost c: nat, pending: seq<CheckRecord>,
                     ghost before: seq<CheckRecord>)
      returns (signal: Signal)
      requires Running(run, plan) && Fresh(pending, before, checks, place, run, op, c)
      requires Leaves(before, checks, run.body.key, run.body.content.direction)
      modifies this`faults, this`clock, this`lastVersion, this`checks, this`place
      ensures Running(run, plan) && place == old(place) && Checked(checks) == Checked(old(checks))
      ensures Leaves(before, checks, run.body.key, run.body.content.direction)
      ensures signal.Ok? ==> forall h :: 0 <= h < |pending| ==> LastDone(checks, pending[h].body.key)
      ensures old(faults) == [] ==> signal.Ok? && faults == []
      ensures |checks| >= |old(checks)| && (pending == [] ==> checks == old(checks))
      ensures old(faults) == [] && old(Orderly()) ==> Orderly()
    {
      hide RunsSound, LastEpoch, Chain, Laid, Stands, Stops, InOrder, Truthful, SentOnce, Final, Checked, UniqueIds,
        Begins, Offset, LastDone, Leaves, Of, Started;
      for i := 0 to |pending|
        invariant Running(run, plan) && place == old(place) && Checked(checks) == Checked(old(checks))
        invariant Leaves(before, checks, run.body.key, run.body.content.direction)
        invariant forall h :: 0 <= h < i ==> LastDone(checks, pending[h].body.key)
        invariant forall h :: i <= h < |pending| ==> Of(checks, pending[h].body.key) == [pending[h]]
        invariant |checks| >= |old(checks)| && (i == 0 ==> checks == old(checks)) && (old(faults) == [] ==> faults == [])
        invariant old(faults) == [] && old(Orderly()) ==> Orderly()
      {
        ghost var earlier := checks;
        RunningMeans(run, plan);
        OneRecord(plan, pending[i]);
        var r;
        signal, r := AppendCheck(Some(pending[i]), pending[i].body.key, pending[i].body.content.(mark := Done));
        if checks != earlier {
          NowMarked(plan, earlier, r);
          LeavesMore(before, earlier, r, run.body.key, run.body.content.direction);
          SameChecked(earlier, r);
        }
        if !signal.Ok? { return; }
        DoneAppended(earlier, r);
        assert forall h :: i < h < |pending| ==> pending[h].body.key != r.body.key;
      }
      signal := Ok;
    }

    lemma OneRecord(plan: Plan, r: CheckRecord)
      requires Valid() && plan == ThePlan() && Of(checks, r.body.key) == [r]
      ensures r.body.key in Checked(checks) && Matching(plan, r.body.key, r.body.content.digest)
      ensures TailOf(checkHash, checks, r.body.key) == r.checksum
    {
      hide RunsSound, Stands, Truthful, Phases, InLine;
      OfElements(checks, r.body.key);
      assert r in Of(checks, r.body.key);
      TailIsEnd(checkHash, checks, r.body.key);
    }

    lemma SameChecked(earlier: seq<CheckRecord>, r: CheckRecord)
      requires r.body.key in Checked(earlier)
      ensures Checked(earlier + [r]) == Checked(earlier)
    {
    }

    lemma SentStill(earlier: seq<CheckRecord>, r: CheckRecord, sent: seq<Key>)
      requires SentOnce(earlier, sent)
      ensures SentOnce(earlier + [r], sent)
    {
      CheckedGrows(earlier, earlier + [r]);
    }

    /** A further record of a statement whose effect is there, or that was closed. */
    lemma NowMarked(plan: Plan, earlier: seq<CheckRecord>, r: CheckRecord)
      requires Laid(plan, runs, earlier, place) && SentOnce(earlier, sent) && checks == earlier + [r]
      requires r.body.key in Checked(earlier) && Matching(plan, r.body.key, r.body.content.digest)
      requires r.body.key in place.missing ==> r.body.key in place.closed
      ensures Laid(plan, runs, checks, place) && SentOnce(checks, sent)
    {
      hide Laid;
      MarkLaid(plan, runs, earlier, place, r);
      SentStill(earlier, r, sent);
    }

    lemma SentNow(earlier: seq<CheckRecord>, checks: seq<CheckRecord>, r: CheckRecord, sent: seq<Key>, key: Key)
      requires SentOnce(earlier, sent) && checks == earlier + [r] && r.body.key == key && key !in sent
      ensures SentOnce(checks, sent + [key])
    {
      CheckedGrows(earlier, checks);
      assert r in checks;
    }

    /** The checkpoints of this epoch and direction are shown as done. */
    static ghost predicate AllShown(checks: seq<CheckRecord>, epoch: nat, direction: Direction) {
      forall k :: k in Checked(checks) && k.epoch == epoch && k.direction == direction ==> Shown(checks, k)
    }

    /** The rest of a direction stands open: the checkpoints it has are shown as done, and the guards hold. */
    ghost predicate Passable(plan: Plan, epoch: nat, direction: Direction, behind: nat)
      reads this`checks, this`data
    {
      AllShown(checks, epoch, direction) && PassOn(plan.Steps(direction), 0, behind, data)
    }

    lemma HadSame(run: RunRecord, plan: Plan, k: nat, n: nat)
      requires Started(run, plan, run.body.content.direction) && k < |plan.Steps(run.body.content.direction)|
      requires n >= Begins(plan, LastEpoch(runs), run.body.content.direction)
      requires |place.intents| == Max(n, PlaceOf(run, plan, k, 0))
      ensures HadOf(plan, run.body.content.direction, k) ==
        Had(plan.Steps(run.body.content.direction), k, n - Begins(plan, LastEpoch(runs), run.body.content.direction))
    {
      hide LastEpoch, Offset, Within;
    }

    lemma StepIsShown(run: RunRecord, plan: Plan, k: nat, before: seq<CheckRecord>, intents: seq<Key>)
      requires Running(run, plan) && k < |plan.Steps(run.body.content.direction)| && ReachedTo(place, PlaceOf(run, plan, k, 0))
      requires AllShown(before, run.body.key, run.body.content.direction) && Leaves(before, checks, run.body.key, run.body.content.direction)
      requires forall key :: key in intents ==> key in Checked(before)
      requires intents <= place.intents && |place.intents| == Max(|intents|, PlaceOf(run, plan, k, 0))
      ensures StepShown(run, plan, k)
    {
      hide RunsSound, Stands, Laid, Truthful, SentOnce, UniqueIds, Checked, Of, Final, Begins, Offset, Started;
      var d := run.body.content.direction;
      RunningMeans(run, plan);
      HadIs(run, plan, k);
      forall h: nat | h < HadOf(plan, d, k) ensures Shown(checks, KeyOf(run, plan.Steps(d)[k].id, h)) {
        HadReached(run, plan, k, h);
        NextKey(run, plan, k, h);
        CheckedIsIntended(plan, KeyOf(run, plan.Steps(d)[k].id, h));
        assert place.intents == intents;
      }
    }

    /** More statements than lead up to this one are intended, so none before it is left dangling. */
    lemma HadReached(run: RunRecord, plan: Plan, k: nat, h: nat)
      requires run.body.key > 0 && k < |plan.Steps(run.body.content.direction)| && |place.intents| > PlaceOf(run, plan, k, h)
      ensures ReachedTo(place, PlaceOf(run, plan, k, h))
    {
    }

    lemma CheckedIsIntended(plan: Plan, key: Key)
      requires Laid(plan, runs, checks, place)
      ensures key in Checked(checks) <==> key in place.intents
    {
    }

    /** All steps, then success. `run` is the record that a failure will be attached to. */
    method Attempt(started: RunRecord, plan: Plan, baseline: bool, ghost before: seq<RunRecord>, ghost reapply: bool)
      returns (signal: Signal, run: RunRecord, effects: bool)
      requires Running(started, plan)
      requires Advanced(runHash, before, runs, reapply) && before != runs
      modifies this`faults, this`clock, this`lastVersion, this`runs, this`checks, this`data, this`sent, this`place
      ensures Valid() && Advanced(runHash, before, runs, reapply) && before != runs && old(sent) <= sent
      ensures ThePlan() == plan && LastEpoch(runs) == old(LastEpoch(runs))
      ensures !signal.Ok? ==>
        && Holds(run, LastEpoch(runs), run.body.content.direction) && Backed(run.body.content)
        && (run.body.content.status == AppliedSuccess ==> run.body.content.baseline)
        && (!effects ==> Untouched(sent, run.body.key, run.body.content.direction))
      ensures signal.Ok? ==> Concluded(TopLog(runs), baseline, started.body.content)
      ensures OnlyOf(old(checks), checks, started.body.key, started.body.content.direction)
      ensures baseline ==> data == old(data) && checks == old(checks) && place == old(place)
      ensures signal.Ok? && !baseline ==> AllShown(old(checks), started.body.key, started.body.content.direction)
      ensures
        var d := started.body.content.direction;
        signal.Ok? && !baseline ==>
          && PassOn(plan.Steps(d), 0, old(Behind(d)), old(data)) && data == RunOn(plan.Steps(d), 0, old(Behind(d)), old(data))
          && ReachedTo(place, Ends(plan, LastEpoch(runs), d)) && place.missing <= old(place).missing && place.closed == old(place).closed
      ensures old(faults) == [] ==> faults == [] && !signal.Crashed? && (baseline ==> signal.Ok?)
      ensures old(faults) == [] && !signal.Ok? ==>
        && run.body.content == started.body.content
        && (effects <==> old(Marked(started.body.key, started.body.content.direction)) || |checks| > |old(checks)|)
      ensures
        var d := started.body.content.direction;
        old(faults) == [] && (baseline || old(Passable(plan, started.body.key, d, Behind(d)))) ==> signal.Ok?
      ensures old(faults) == [] && old(Orderly()) ==> Orderly()
      ensures old(faults) == [] && !signal.Ok? ==> Newest(run)
      ensures
        var d := started.body.content.direction;
        var plain := plan.Steps(d) != [] && plan.Steps(d)[0].statements != [] && old(Behind(d)) == 0 && Passes(plan.Steps(d)[0].before, old(data));
        forall last :: Stops(old(faults), 3, last) && !baseline && plain ==>
          && signal.Raised? && faults == [] && (old(Orderly()) ==> Orderly()) && (effects <==> old(Marked(started.body.key, d)) || last.FailsBefore?) && data == old(data)
          && OnlyMarked(old(checks), checks, old(place), place, KeyOf(started, plan.Steps(d)[0].id, 0), started.body.content.runId)
          && Newest(run) && run.body.content == started.body.content
    {
      hide RunsSound, Of, LastEpoch, Chain, Truthful, Advanced, Untouched, Checked, Passes, Laid, Stands, SentOnce, Stops, InOrder,
        Begins, Offset, UniqueIds, Within, ReachedTo, RunOn, PassOn, LastDone, Backs, AllShown, OnlyMarked, OnlyOf;
      run := started;
      var direction := run.body.content.direction;
      effects := Marked(run.body.key, direction);
      UnmarkedUntouched(run.body.key, direction);
      LeavesAll(checks, run.body.key, direction);
      if baseline {
        RunIsBacked(run);
        signal := Probe();
        if !signal.Ok? { return; }
        var r;
        AcknowledgedIsBacked(run.body.content);
        signal, r := Follow(run, run.body.content.(status := AppliedSuccess, baseline := true), before, reapply);
        if !signal.Ok? { return; }
        run := r;
        // The event that records the baseline is written on its own.
        signal := Probe();
        return;
      }
      signal, run, effects := SendAll(started, plan, effects, before, reapply);
      RunIsBacked(run);
      if !signal.Ok? { return; }
      signal := Probe();
      if !signal.Ok? { return; }
      var status := if direction == Rollback then RolledBack else AppliedSuccess;
      FinishedIsBacked(run, plan, status);
      var r;
      signal, r := Follow(run, run.body.content.(status := status, baseline := false), before, reapply);
    }

    /** The run has done the first `k` steps of its direction; it began with the checkpoints `first`, at `p`. */
    ghost predicate Along(run: RunRecord, plan: Plan, k: nat, first: seq<CheckRecord>, p: Place)
      requires k <= |plan.Steps(run.body.content.direction)|
      reads this
    {
      && Running(run, plan) && run.body.key > 0 && Leaves(first, checks, run.body.key, run.body.content.direction)
      && ReachedTo(place, PlaceOf(run, plan, k, 0)) && |place.intents| == Max(|p.intents|, PlaceOf(run, plan, k, 0))
      && p.intents <= place.intents && place.missing <= p.missing && place.closed == p.closed
      && |p.intents| >= Begins(plan, run.body.key, run.body.content.direction)
      && forall key :: key in p.intents ==> key in Checked(first)
    }

    /** How many statements of the direction had a checkpoint. */
    ghost function HadThen(run: RunRecord, plan: Plan, p: Place): nat
      requires run.body.key > 0
    {
      var b := Begins(plan, run.body.key, run.body.content.direction);
      if |p.intents| >= b then |p.intents| - b else 0
    }

    /** One step, after the record that names it; on an error `next` is the record still held. */
    method OneStep(run: RunRecord, plan: Plan, k: nat, possible: bool, ghost before: seq<RunRecord>, ghost reapply: bool,
                   ghost first: seq<CheckRecord>, ghost p: Place)
      returns (signal: Signal, next: RunRecord, effects: bool)
      requires k < |plan.Steps(run.body.content.direction)| && Along(run, plan, k, first, p)
      requires Advanced(runHash, before, runs, reapply) && before != runs
      requires !possible ==> Untouched(sent, run.body.key, run.body.content.direction)
      modifies this`faults, this`clock, this`lastVersion, this`runs, this`checks, this`data, this`sent, this`place
      ensures Valid() && Advanced(runHash, before, runs, reapply) && before != runs && old(sent) <= sent
      ensures ThePlan() == plan && LastEpoch(runs) == old(LastEpoch(runs))
      ensures Holds(next, LastEpoch(runs), next.body.content.direction)
      ensures next.body.key == run.body.key && next.body.content == run.body.content
      ensures !effects ==> Untouched(sent, run.body.key, run.body.content.direction)
      ensures OnlyOf(first, checks, run.body.key, run.body.content.direction)
      ensures signal.Ok? ==>
        var steps := plan.Steps(run.body.content.direction);
        && Along(next, plan, k + 1, first, p) && data == RunOnStep(steps, k, HadThen(run, plan, p), old(data))
        && Passes(steps[k].before, old(data)) && Passes(steps[k].after, data)
        && NoneOpen(first, run.body.key, run.body.content.direction, steps[k], |steps[k].statements|)
      ensures |checks| >= |old(checks)|
      ensures old(faults) == [] ==> faults == [] && (!signal.Ok? ==> Newest(next)) && !signal.Crashed? && (effects <==> possible || |checks| > |old(checks)|)
      ensures
        var steps := plan.Steps(run.body.content.direction);
        var pass := Passes(steps[k].before, old(data)) && Passes(steps[k].after, RunOnStep(steps, k, HadThen(run, plan, p), old(data)));
        old(faults) == [] && AllShown(first, run.body.key, run.body.content.direction) && pass ==> signal.Ok?
      ensures old(faults) == [] && old(Orderly()) ==> Orderly()
      ensures
        var step := plan.Steps(run.body.content.direction)[k];
        var plain := step.statements != [] && |old(place.intents)| == PlaceOf(run, plan, k, 0) && Passes(step.before, old(data));
        forall last :: Stops(old(faults), 3, last) && plain ==>
          && signal.Raised? && faults == [] && (old(Orderly()) ==> Orderly()) && (effects <==> possible || last.FailsBefore?) && data == old(data)
          && OnlyMarked(old(checks), checks, old(place), place, KeyOf(run, step.id, 0), run.body.content.runId)
          && Newest(next)
    {
      hide RunsSound, Of, LastEpoch, Chain, Truthful, Advanced, Untouched, Checked, Passes, Laid, Stands, SentOnce, Stops, InOrder,
        Begins, Offset, UniqueIds, ReachedTo, Leaves, StepShown, LastDone, Backs, AllShown, From, Started, OnlyMarked,
        Newest, Holds, OnlyOf, NoneOpen;
      effects := possible;
      var direction := run.body.content.direction;
      RunningValid(run, plan);
      LeavesOnly(first, checks, run.body.key, direction);
      signal, next := NameStep(run, plan, before, reapply);
      if !signal.Ok? { return; }
      RunningValid(next, plan);
      HadSame(next, plan, k, |p.intents|);
      if AllShown(first, run.body.key, direction) {
        StepIsShown(next, plan, k, first, p.intents);
      }
      ghost var earlier := checks;
      signal, effects := SendStep(next, plan, k, plan.Steps(direction)[k], effects);
      RunningValid(next, plan);
      OnlyJoin(first, earlier, checks, run.body.key, direction);
      if !signal.Ok? { return; }
      NoneOpenBefore(first, earlier, run.body.key, direction, plan.Steps(direction)[k]);
      LeavesJoin(first, earlier, checks, run.body.key, direction);
      NextPlace(next, plan, k);
    }

    /** The steps of the plan in order. */
    method SendAll(started: RunRecord, plan: Plan, possible: bool, ghost before: seq<RunRecord>, ghost reapply: bool)
      returns (signal: Signal, run: RunRecord, effects: bool)
      requires Running(started, plan)
      requires Advanced(runHash, before, runs, reapply) && before != runs
      requires !possible ==> Untouched(sent, started.body.key, started.body.content.direction)
      modifies this`faults, this`clock, this`lastVersion, this`runs, this`checks, this`data, this`sent, this`place
      ensures Valid() && Advanced(runHash, before, runs, reapply) && before != runs && old(sent) <= sent
      ensures ThePlan() == plan && LastEpoch(runs) == old(LastEpoch(runs))
      ensures Holds(run, LastEpoch(runs), run.body.content.direction) && run.body.content == started.body.content
      ensures !effects ==> Untouched(sent, run.body.key, run.body.content.direction)
      ensures OnlyOf(old(checks), checks, started.body.key, started.body.content.direction)
      ensures signal.Ok? ==> Running(run, plan)
      ensures signal.Ok? ==> AllShown(old(checks), started.body.key, started.body.content.direction)
      ensures
        var d := started.body.content.direction;
        signal.Ok? ==>
          && PassOn(plan.Steps(d), 0, old(Behind(d)), old(data)) && data == RunOn(plan.Steps(d), 0, old(Behind(d)), old(data))
          && ReachedTo(place, Ends(plan, LastEpoch(runs), d)) && place.missing <= old(place).missing && place.closed == old(place).closed
      ensures |checks| >= |old(checks)|
      ensures old(faults) == [] ==> faults == [] && !signal.Crashed? && (effects <==> possible || |checks| > |old(checks)|)
      ensures
        var d := started.body.content.direction;
        old(faults) == [] && old(Passable(plan, started.body.key, d, Behind(d))) ==> signal.Ok?
      ensures old(faults) == [] && old(Orderly()) ==> Orderly()
      ensures old(faults) == [] && !signal.Ok? ==> Newest(run)
      ensures
        var d := started.body.content.direction;
        var plain := plan.Steps(d) != [] && plan.Steps(d)[0].statements != [] && old(Behind(d)) == 0 && Passes(plan.Steps(d)[0].before, old(data));
        forall last :: Stops(old(faults), 3, last) && plain ==>
          && signal.Raised? && faults == [] && (old(Orderly()) ==> Orderly()) && (effects <==> possible || last.FailsBefore?) && data == old(data)
          && OnlyMarked(old(checks), checks, old(place), place, KeyOf(started, plan.Steps(d)[0].id, 0), started.body.content.runId)
          && Newest(run)
    {
      hide RunsSound, Of, LastEpoch, Chain, Truthful, Advanced, Untouched, Checked, Passes, Laid, Stands, SentOnce, Stops, InOrder,
        Begins, Offset, UniqueIds, ReachedTo, Leaves, AllShown, RunOnStep, Started, OnlyMarked, OnlyOf,
        Newest, SameRest, Running, Valid, Holds, Along, NoneOpen, Tabled;
      run, effects := started, possible;
      var direction := run.body.content.direction;
      var steps := plan.Steps(direction);
      ghost var m := Behind(direction);
      RunningValid(run, plan);
      SetsOut(run, plan);
      StartedTabled(run, plan);
      RestBegins(steps, m, data);
      for i := 0 to |steps|
        invariant run.body.key == started.body.key && run.body.content == started.body.content && run.body.key > 0
        invariant Along(run, plan, i, old(checks), old(place)) && Running(run, plan)
        invariant m == HadThen(run, plan, old(place))
        invariant LastEpoch(runs) == old(LastEpoch(runs))
        invariant Advanced(runHash, before, runs, reapply) && before != runs && old(sent) <= sent
        invariant !effects ==> Untouched(sent, run.body.key, direction)
        invariant SameRest(steps, m, i, data, 0, old(data))
        invariant forall j :: 0 <= j < i ==> NoneOpen(old(checks), run.body.key, direction, steps[j], |steps[j].statements|)
        invariant |checks| >= |old(checks)| && (old(faults) == [] ==> faults == [] && (effects <==> possible || |checks| > |old(checks)|))
        invariant old(faults) == [] && old(Orderly()) ==> Orderly()
        invariant i == 0 ==>
          && faults == old(faults) && checks == old(checks) && place == old(place) && data == old(data)
          && (old(Orderly()) ==> Orderly())
        invariant
          var plain := steps != [] && steps[0].statements != [] && m == 0 && Passes(steps[0].before, old(data));
          forall last :: Stops(old(faults), 3, last) && plain ==> i == 0 && effects == possible
      {
        RestNext(steps, m, i, data, old(data));
        signal, run, effects := OneStep(run, plan, i, effects, before, reapply, old(checks), old(place));
        if !signal.Ok? { return; }
        AlongIsRunning(run, plan, i + 1, old(checks), old(place));
      }
      signal := Ok;
      NoneOpenAll(plan, old(checks), old(place), run.body.key, direction);
      RestEnd(steps, m, data, old(data));
      RunningValid(run, plan);
      Arrives(run, plan, old(checks), old(place));
    }

    /** At its beginning a run has got nowhere. */
    lemma SetsOut(run: RunRecord, plan: Plan)
      requires Running(run, plan)
      ensures run.body.key > 0 && Along(run, plan, 0, checks, place)
      ensures Behind(run.body.content.direction) == HadThen(run, plan, place)
      ensures Behind(run.body.content.direction) == 0 ==> |place.intents| == PlaceOf(run, plan, 0, 0)
    {
      hide RunsSound, Stands, Truthful, Phases, Chain, Line, LastEpoch;
      RunningMeans(run, plan);
      AtBeginning(run, plan);
      IntentsChecked(plan);
      LeavesAll(checks, run.body.key, run.body.content.direction);
    }

    lemma StartedTabled(run: RunRecord, plan: Plan)
      requires Running(run, plan)
      ensures Tabled(plan, checks, place)
    {
    }

    lemma AlongIsRunning(run: RunRecord, plan: Plan, k: nat, first: seq<CheckRecord>, p: Place)
      requires k <= |plan.Steps(run.body.content.direction)| && Along(run, plan, k, first, p)
      ensures Running(run, plan)
    {
    }

    lemma Arrives(run: RunRecord, plan: Plan, first: seq<CheckRecord>, p: Place)
      requires Along(run, plan, |plan.Steps(run.body.content.direction)|, first, p)
      ensures ReachedTo(place, Ends(plan, LastEpoch(runs), run.body.content.direction))
      ensures place.missing <= p.missing && place.closed == p.closed
      ensures OnlyOf(first, checks, run.body.key, run.body.content.direction)
    {
      hide RunsSound, Stands, Truthful, Laid, SentOnce, Chain, Line, LastEpoch, Of, Checked;
      RunningMeans(run, plan);
      AtEnd(run, plan);
    }

    lemma RunningValid(run: RunRecord, plan: Plan)
      requires Running(run, plan)
      ensures Valid() && Started(run, plan, run.body.content.direction) && ThePlan() == plan
      ensures Holds(run, LastEpoch(runs), run.body.content.direction) && Newest(run)
    {
    }

    /** The record that names the step about to begin; on an error the one before it is still held. */
    method NameStep(run: RunRecord, ghost plan: Plan, ghost before: seq<RunRecord>, ghost reapply: bool)
      returns (signal: Signal, r: RunRecord)
      requires Running(run, plan) && Advanced(runHash, before, runs, reapply) && before != runs
      modifies this`faults, this`clock, this`lastVersion, this`runs
      ensures Valid() && Advanced(runHash, before, runs, reapply) && before != runs
      ensures LastEpoch(runs) == old(LastEpoch(runs)) && ThePlan() == plan
      ensures r.body.key == run.body.key && r.body.content == run.body.content
      ensures Holds(r, LastEpoch(runs), r.body.content.direction)
      ensures signal.Ok? ==> Running(r, plan) && Newest(r)
      ensures old(faults) == [] ==> signal.Ok? && faults == []
      ensures old(faults) == [] && old(Orderly()) ==> Orderly()
      ensures forall n: nat, last :: n >= 1 && Stops(old(faults), n, last) ==> signal.Ok? && Stops(faults, n - 1, last) && (old(Orderly()) ==> Orderly())
    {
      hide RunsSound, Of, LastEpoch, Chain, Truthful, Advanced, Laid, Stands, SentOnce, Stops, InOrder,
        Begins, UniqueIds, ReachedTo, Backs, Within, Allowed;
      RunIsBacked(run);
      AgainIsAllowed(run.body.content);
      signal, r := Follow(run, run.body.content, before, reapply);
      if !signal.Ok? {
        r := run;
        return;
      }
      ReachingStill(plan, run.body.content.direction);
    }

    lemma LeavesOnly(before: seq<CheckRecord>, checks: seq<CheckRecord>, epoch: nat, direction: Direction)
      requires Leaves(before, checks, epoch, direction)
      ensures OnlyOf(before, checks, epoch, direction)
    {
    }

    lemma AtBeginning(run: RunRecord, plan: Plan)
      requires Started(run, plan, run.body.content.direction)
      ensures run.body.key > 0 && ReachedTo(place, PlaceOf(run, plan, 0, 0))
      ensures |place.intents| == Max(|place.intents|, PlaceOf(run, plan, 0, 0))
      ensures |place.intents| >= Begins(plan, LastEpoch(runs), run.body.content.direction)
      ensures Behind(run.body.content.direction) == |place.intents| - Begins(plan, LastEpoch(runs), run.body.content.direction)
    {
      hide LastEpoch, Within, Line;
    }

    lemma AtEnd(run: RunRecord, plan: Plan)
      requires run.body.key > 0 && ReachedTo(place, PlaceOf(run, plan, |plan.Steps(run.body.content.direction)|, 0))
      ensures ReachedTo(place, Ends(plan, run.body.key, run.body.content.direction))
    {
      hide Line;
    }

    lemma NextPlace(run: RunRecord, plan: Plan, k: nat)
      requires run.body.key > 0 && k < |plan.Steps(run.body.content.direction)|
      ensures PlaceOf(run, plan, k + 1, 0) == PlaceOf(run, plan, k, |plan.Steps(run.body.content.direction)[k].statements|)
      ensures PlaceOf(run, plan, k + 1, 0) >= PlaceOf(run, plan, k, 0)
    {
      hide Line;
    }

    lemma IntentsChecked(plan: Plan)
      requires Laid(plan, runs, checks, place)
      ensures forall key :: key in place.intents ==> key in Checked(checks)
    {
    }

    /** An applying record may be followed by itself. */
    lemma AgainIsAllowed(run: Run)
      requires run.status == Applying
      ensures Allowed(run, run)
    {
    }

    /** What a further record of the epoch leaves of the position. */
    lemma ReachingStill(plan: Plan, direction: Direction)
      requires ThePlan() == plan && LastEpoch(runs) > 0 && ReachedTo(place, Begins(plan, LastEpoch(runs), direction))
      ensures Reaching(direction)
    {
    }

    /** Going on from the step at `i` with these user tables is going on from the one at `j` with those. */
    static ghost predicate SameRest(steps: seq<Step>, done: nat, i: nat, d: Data, j: nat, e: Data) {
      RunOn(steps, i, done, d) == RunOn(steps, j, done, e) && (PassOn(steps, i, done, d) <==> PassOn(steps, j, done, e))
    }

    lemma RestNext(steps: seq<Step>, done: nat, k: nat, d: Data, e: Data)
      requires k < |steps| && SameRest(steps, done, k, d, 0, e)
      ensures
        var after := RunOnStep(steps, k, done, d);
        && (PassOn(steps, 0, done, e) ==> Passes(steps[k].before, d) && Passes(steps[k].after, after))
        && (Passes(steps[k].before, d) && Passes(steps[k].after, after) ==> SameRest(steps, done, k + 1, after, 0, e))
    {
      hide RunOnStep, Passes;
    }

    lemma RestEnd(steps: seq<Step>, done: nat, d: Data, e: Data)
      requires SameRest(steps, done, |steps|, d, 0, e)
      ensures RunOn(steps, 0, done, e) == d && PassOn(steps, 0, done, e)
    {
    }

    lemma RestBegins(steps: seq<Step>, done: nat, d: Data)
      ensures SameRest(steps, done, 0, d, 0, d)
    {
    }

    /** An acknowledged baseline claims no statement. */
    lemma AcknowledgedIsBacked(run: Run)
      requires Backed(run)
      ensures Backed(run.(status := AppliedSuccess, baseline := true))
    {
    }

    /** The final record of a direction claims no more than is there. */
    lemma FinishedIsBacked(run: RunRecord, plan: Plan, status: Status)
      requires Running(run, plan) && ReachedTo(place, Ends(plan, LastEpoch(runs), run.body.content.direction))
      requires status == if run.body.content.direction == Rollback then RolledBack else AppliedSuccess
      ensures Backed(run.body.content.(status := status, baseline := false))
    {
      RunIsBacked(run);
      hide RunsSound, Laid, Stands, Truthful, SentOnce, LastEpoch, Line, Keys, Within, UniqueIds;
    }

    lemma UnmarkedUntouched(epoch: nat, direction: Direction)
      requires SentOnce(checks, sent)
      ensures !Marked(epoch, direction) ==> Untouched(sent, epoch, direction)
    {
    }

    /** Where nothing fails the command runs to its end: it may start, and its guards hold. */
    ghost predicate WillRun(plan: Plan, direction: Direction, baseline: bool, reapply: bool)
      reads this`runs, this`checks, this`data, this`place
    {
      && Startable(plan, direction, reapply)
      && (baseline || Passable(plan, Admitted(plan, direction, reapply).epoch, direction, Before(plan, direction, reapply)))
    }

    /** How many statements of the direction to be run are intended. */
    ghost function Before(plan: Plan, direction: Direction, reapply: bool): nat
      requires Admitted(plan, direction, reapply).Open? || Admitted(plan, direction, reapply).Resume?
      reads this`runs, this`place
    {
      var epoch := Admitted(plan, direction, reapply).epoch;
      if epoch > 0 && |place.intents| >= Begins(plan, epoch, direction) then |place.intents| - Begins(plan, epoch, direction) else 0
    }

    /** The first thing a plan does is to send a statement. */
    static ghost predicate Simple(plan: Plan, d: Data) {
      UniqueIds(plan.upgrade) && plan.upgrade != [] && plan.upgrade[0].statements != [] && Passes(plan.upgrade[0].before, d)
    }

    /** The first run of the plan ended with one checkpoint and nothing else; the journal says so or sees no effects. */
    ghost predicate Stalled(plan: Plan, doubted: bool)
      reads this`runs, this`checks, this`place
    {
      var log := TopLog(runs);
      && LastEpoch(runs) == 1 && log != [] && plan.upgrade != []
      && var run := log[|log| - 1].body.content;
      && run.status == (if doubted then UnknownRequiresReconciliation else FailedRetryable)
      && run.error == (if doubted then PossibleSideEffects else NoSideEffects)
      && run.checksum == plan.checksum && run.direction == Upgrade
      && run.epoch == 1 && !run.baseline && ThePlan() == plan
      && OnlyMarked([], checks, Place([], {}, {}), place, Key(1, Upgrade, plan.upgrade[0].id, 0), run.runId)
    }

    /** A failure claims nothing that the run did not. */
    lemma FailureIsBacked(run: Run, status: Status, error: Evidence, baseline: bool)
      requires Backed(run) && run.status in {Applying, AppliedSuccess} && status in {UnknownRequiresReconciliation, FailedRetryable}
      ensures Backed(run.(status := status, error := error, baseline := baseline))
    {
    }

    /** Nothing was run yet, so nothing is intended. */
    lemma NothingIntended()
      requires Valid()
      ensures runs == [] ==> place == Place([], {}, {}) && checks == [] && LastEpoch(runs) == 0
    {
      hide RunsSound, Stands, Truthful;
      if runs == [] {
        EmptyPlace(ThePlan(), ThePlan(), runs, checks, place);
        if checks != [] {
          SomeChecked(checks);
        }
      }
    }

    /** A run from its first record on: the attempt, and on an error the record of what may have happened. */
    method RunFrom(first: RunRecord, plan: Plan, baseline: bool, ghost before: seq<RunRecord>, ghost reapply: bool)
      returns (signal: Signal)
      requires Running(first, plan) && Advanced(runHash, before, runs, reapply) && before != runs
      modifies this`faults, this`clock, this`lastVersion, this`runs, this`checks, this`data, this`sent, this`place
      ensures Valid() && Advanced(runHash, before, runs, reapply) && old(sent) <= sent
      ensures ThePlan() == plan && LastEpoch(runs) == old(LastEpoch(runs))
      ensures signal.Ok? ==> Concluded(TopLog(runs), baseline, first.body.content)
      ensures signal.Ok? && !baseline ==> AllShown(old(checks), first.body.key, first.body.content.direction)
      ensures OnlyOf(old(checks), checks, first.body.key, first.body.content.direction)
      ensures
        var d := first.body.content.direction;
        signal.Ok? && !baseline ==>
          && PassOn(plan.Steps(d), 0, old(Behind(d)), old(data)) && data == RunOn(plan.Steps(d), 0, old(Behind(d)), old(data))
          && ReachedTo(place, Ends(plan, LastEpoch(runs), d)) && place.missing <= old(place).missing && place.closed == old(place).closed
      ensures old(faults) == [] ==> faults == [] && !signal.Crashed?
      ensures old(faults) == [] && !signal.Ok? ==>
        EndsFailed(TopLog(runs), first.body.content,
                   old(Marked(first.body.key, first.body.content.direction)) || |checks| > |old(checks)|)
      ensures
        var d := first.body.content.direction;
        old(faults) == [] && (baseline || old(Passable(plan, first.body.key, d, Behind(d)))) ==> signal.Ok?
      ensures old(faults) == [] && old(Orderly()) ==> Orderly()
      ensures
        var d := first.body.content.direction;
        var plain := plan.Steps(d) != [] && plan.Steps(d)[0].statements != [] && old(Behind(d)) == 0 && Passes(plan.Steps(d)[0].before, old(data));
        forall last :: Stops(old(faults), 3, last) && !baseline && plain ==>
          && signal.Raised? && faults == [] && (old(Orderly()) ==> Orderly()) && data == old(data)
          && OnlyMarked(old(checks), checks, old(place), place, KeyOf(first, plan.Steps(d)[0].id, 0), first.body.content.runId)
          && EndsFailed(TopLog(runs), first.body.content, old(Marked(first.body.key, d)) || last.FailsBefore?)
    {
      hide RunsSound, Of, LastEpoch, Chain, Truthful, Advanced, Untouched, Checked, Passes, Laid, Stands, SentOnce, Stops, InOrder,
        Begins, UniqueIds, ReachedTo, RunOn, PassOn, Backs, AllShown, Within, OnlyMarked, OnlyOf;
      var run, effects;
      signal, run, effects := Attempt(first, plan, baseline, before, reapply);
      if signal.Raised? {
        var status := if effects then UnknownRequiresReconciliation else FailedRetryable;
        var error := if effects then PossibleSideEffects else NoSideEffects;
        FailureIsBacked(run.body.content, status, error, baseline);
        FailureIsAllowed(run.body.content, status, error, baseline);
        var _, _ := Follow(run, run.body.content.(status := status, error := error, baseline := baseline), before, reapply);
      }
    }

    lemma FailureIsAllowed(run: Run, status: Status, error: Evidence, baseline: bool)
      requires run.status == Applying || (run.status == AppliedSuccess && run.baseline)
      requires status in {UnknownRequiresReconciliation, FailedRetryable}
      ensures Allowed(run, run.(status := status, error := error, baseline := baseline))
    {
    }

    /** The epoch's last record says whether this failed run may have had effects. */
    static ghost predicate EndsFailed(log: seq<RunRecord>, run: Run, effects: bool) {
      log != [] && log[|log| - 1].body.content ==
        if effects then run.(status := UnknownRequiresReconciliation, error := PossibleSideEffects, baseline := false)
        else run.(status := FailedRetryable, error := NoSideEffects, baseline := false)
    }

    /** The epoch's last record is that of a failed run: in doubt if there were checkpoints before or some were added. */
    static ghost predicate FailsAs(log: seq<RunRecord>, plan: Plan, direction: Direction, effects: bool) {
      && log != []
      && var run := log[|log| - 1].body.content;
      && run.checksum == plan.checksum && run.direction == direction
      && run.status == (if effects then UnknownRequiresReconciliation else FailedRetryable)
      && run.error == (if effects then PossibleSideEffects else NoSideEffects)
    }

    lemma NowFailed(run: RunRecord, plan: Plan)
      requires run.body.content.checksum == plan.checksum
      ensures forall effects ::
        EndsFailed(TopLog(runs), run.body.content, effects) ==> FailsAs(TopLog(runs), plan, run.body.content.direction, effects)
    {
    }

    /** The start of a run, up to what counts as its failure. */
    method Begin(plan: Plan, direction: Direction, baseline: bool, reapply: bool) returns (signal: Signal, first: Option<RunRecord>)
      requires Valid() && plan == catalog(plan.checksum)
      modifies this`faults, this`clock, this`lastVersion, this`runs, this`freshId
      ensures Valid() && Advanced(runHash, old(runs), runs, reapply)
      ensures first.Some? ==>
        && runs != old(runs) && Running(first.value, plan) && ThePlan() == plan && old(Startable(plan, direction, reapply))
        && IsEpoch(old(Admitted(plan, direction, reapply)), LastEpoch(runs))
        && first.value.body.key == LastEpoch(runs) == first.value.body.content.epoch
        && first.value.body.content.direction == direction && first.value.body.content.checksum == plan.checksum
      ensures signal.Ok? && first.None? ==> old(Admitted(plan, direction, reapply)).AlreadyApplied?
      ensures old(faults) == [] ==> faults == [] && (old(Startable(plan, direction, reapply)) ==> signal.Ok? && first.Some?)
      ensures old(faults) == [] && old(Orderly()) ==> Orderly()
      ensures forall n: nat, last ::
        n >= 4 && Stops(old(faults), n, last) && old(runs) == [] && direction == Upgrade && UniqueIds(plan.upgrade) ==>
          signal.Ok? && first.Some? && Stops(faults, n - 4, last) && (old(Orderly()) ==> Orderly()) && LastEpoch(runs) == 1
    {
      hide RunsSound, Of, LastEpoch, Advanced, SentOnce, UniqueIds, Readable, Laid, Stands, Truthful, Stops, InOrder, Admit, Started, Running;
      signal, first := Start(plan, direction, baseline, reapply);
      if !signal.Ok? { first := None; }
      if first.None? { return; }
      // Reading the checkpoints happens before failures are recorded.
      signal := Probe();
      RunStarts(first.value, plan, direction);
    }

    /** A run that has started, in terms of the command. */
    method Proceed(first: RunRecord, plan: Plan, direction: Direction, baseline: bool, ghost before: seq<RunRecord>, ghost reapply: bool)
      returns (signal: Signal)
      requires Running(first, plan) && Advanced(runHash, before, runs, reapply) && before != runs && ThePlan() == plan
      requires first.body.key == LastEpoch(runs) == first.body.content.epoch
      requires first.body.content.direction == direction && first.body.content.checksum == plan.checksum
      modifies this`faults, this`clock, this`lastVersion, this`runs, this`checks, this`data, this`sent, this`place
      ensures Valid() && Advanced(runHash, before, runs, reapply) && old(sent) <= sent
      ensures LastEpoch(runs) == old(LastEpoch(runs)) && OnlyOf(old(checks), checks, LastEpoch(runs), direction)
      ensures signal.Ok? ==>
        Succeeded(plan, direction, baseline) && (baseline || old(Passable(plan, LastEpoch(runs), direction, Behind(direction))))
      ensures signal.Ok? && !baseline ==>
        && data == RunOn(plan.Steps(direction), 0, old(Behind(direction)), old(data))
        && ReachedTo(place, Ends(plan, LastEpoch(runs), direction))
        && place.missing <= old(place).missing && place.closed == old(place).closed
      ensures old(faults) == [] ==> faults == []
      ensures old(faults) == [] && !signal.Ok? ==>
        FailsAs(TopLog(runs), plan, direction, old(Marked(LastEpoch(runs), direction)) || |checks| > |old(checks)|)
      ensures old(faults) == [] && (baseline || old(Passable(plan, LastEpoch(runs), direction, Behind(direction)))) ==> signal.Ok?
      ensures old(faults) == [] && old(Orderly()) ==> Orderly()
      ensures forall last ::
        && Stops(old(faults), 3, last) && old(LastEpoch(runs)) == 1 && old(Behind(direction)) == 0
        && old(checks) == [] && old(place) == Place([], {}, {})
        && direction == Upgrade && !baseline && Simple(plan, old(data)) ==>
          signal.Raised? && faults == [] && (old(Orderly()) ==> Orderly()) && data == old(data) && Stalled(plan, last.FailsBefore?)
    {
      hide RunsSound, Of, LastEpoch, Chain, Truthful, Advanced, Untouched, SentOnce, UniqueIds, Passes,
        Checked, RunOn, PassOn, Laid, Stands, Stops, InOrder, AllShown, Begins, ReachedTo, Within, OnlyMarked,
        Started, Running, Stalled, EndsFailed, FailsAs, Marked, Succeeded, Concluded;
      if checks == [] {
        NoneMarked();
      }
      signal := RunFrom(first, plan, baseline, before, reapply);
      NowFailed(first, plan);
      NowSucceeded(first, plan, baseline);
      if direction == Upgrade && plan.upgrade != [] {
        NowStalled(first, plan);
      }
    }

    lemma NoneMarked()
      requires checks == []
      ensures forall e: nat, d :: !Marked(e, d)
    {
    }

    lemma NowSucceeded(run: RunRecord, plan: Plan, baseline: bool)
      requires run.body.content.epoch == LastEpoch(runs) && run.body.content.checksum == plan.checksum
      ensures Concluded(TopLog(runs), baseline, run.body.content) ==> Succeeded(plan, run.body.content.direction, baseline)
    {
    }

    /** A run of the engine: whether it may start, its first record, and what comes of it. */
    method Execute(plan: Plan, direction: Direction, baseline: bool, reapply: bool) returns (signal: Signal, started: bool)
      requires Valid() && plan == catalog(plan.checksum)
      modifies this`faults, this`clock, this`lastVersion, this`runs, this`checks, this`data, this`sent, this`place, this`freshId
      ensures Valid() && Advanced(runHash, old(runs), runs, reapply) && old(sent) <= sent
      ensures signal.Ok? && !started ==> old(Admitted(plan, direction, reapply)).AlreadyApplied? && data == old(data)
      ensures started ==> old(Startable(plan, direction, reapply))
      ensures signal.Ok? && started ==> old(WillRun(plan, direction, baseline, reapply))
      ensures signal.Ok? && started ==> Succeeded(plan, direction, baseline)
      ensures signal.Ok? && started && !baseline ==>
        var m := old(Before(plan, direction, reapply));
        && PassOn(plan.Steps(direction), 0, m, old(data)) && data == RunOn(plan.Steps(direction), 0, m, old(data))
        && ReachedTo(place, Ends(plan, LastEpoch(runs), direction))
        && place.missing <= old(place).missing && place.closed == old(place).closed
      ensures old(faults) == [] && old(WillRun(plan, direction, baseline, reapply)) ==> signal.Ok? && started
      ensures old(faults) == [] ==> faults == []
      ensures old(faults) == [] && started && !signal.Ok? ==>
        FailsAs(TopLog(runs), plan, direction, old(Marked(Admitted(plan, direction, reapply).epoch, direction)) || |checks| > |old(checks)|)
      ensures old(faults) == [] && old(Orderly()) ==> Orderly()
      ensures OnlyOf(old(checks), checks, LastEpoch(runs), direction)
      ensures forall last ::
        Stops(old(faults), 7, last) && old(runs) == [] && direction == Upgrade && !baseline && Simple(plan, old(data)) ==>
          signal.Raised? && faults == [] && (old(Orderly()) ==> Orderly()) && data == old(data) && Stalled(plan, last.FailsBefore?)
    {
      hide RunsSound, Of, LastEpoch, Chain, Truthful, Advanced, SentOnce, UniqueIds, Readable, Passes,
        Checked, RunOn, PassOn, Final, Admit, Laid, Stands, Stops, InOrder, AllShown, Begins, ReachedTo,
        Running, Stalled, FailsAs, Marked, Succeeded;
      NothingIntended();
      LeavesAll(checks, LastEpoch(runs), direction);
      var first;
      signal, first := Begin(plan, direction, baseline, reapply);
      started := first.Some?;
      LeavesAll(checks, LastEpoch(runs), direction);
      FirstIsNew();
      if !signal.Ok? || !started { return; }
      signal := Proceed(first.value, plan, direction, baseline, old(runs), reapply);
    }

    lemma NowStalled(run: RunRecord, plan: Plan)
      requires run.body.key == run.body.content.epoch == LastEpoch(runs) && ThePlan() == plan && run.body.content.direction == Upgrade
      requires run.body.content.checksum == plan.checksum && plan.upgrade != []
      ensures forall doubted ::
        && EndsFailed(TopLog(runs), run.body.content, doubted) && LastEpoch(runs) == 1
        && OnlyMarked([], checks, Place([], {}, {}), place, KeyOf(run, plan.upgrade[0].id, 0), run.body.content.runId) ==>
          Stalled(plan, doubted)
    {
      hide LastEpoch, Of, OnlyMarked;
    }

    /** The latest epoch ends in the success of a run of this plan. */
    ghost predicate Succeeded(plan: Plan, direction: Direction, baseline: bool)
      reads this`runs
    {
      var log := TopLog(runs);
      && log != []
      && var run := log[|log| - 1].body.content;
      && run.status == (if !baseline && direction == Rollback then RolledBack else AppliedSuccess) && run.baseline == baseline
      && run.checksum == plan.checksum && run.direction == direction && run.epoch == LastEpoch(runs)
    }

    /** A run that has started is under way, as the first record says. */
    lemma RunStarts(run: RunRecord, plan: Plan, direction: Direction)
      requires Valid() && UniqueIds(plan.Steps(direction)) && Started(run, plan, direction)
      ensures Running(run, plan) && run.body.key == LastEpoch(runs) && run.body.content.epoch == LastEpoch(runs)
      ensures run.body.content.direction == direction && run.body.content.checksum == plan.checksum && ThePlan() == plan
    {
    }

    lemma FirstIsNew()
      requires Valid()
      ensures place.intents == [] && LastEpoch(runs) == 1 ==> Behind(Upgrade) == 0
    {
    }

    // ---------- reconciliation ----------

    /** The checkpoints that the latest run left, as FINAL shows them. */
    function Left(epoch: nat, runId: nat): set<Key>
      reads this`checks
    {
      set k | k in Checked(checks) && k.epoch == epoch && Of(checks, k) != [] && Final(Of(checks, k)).body.content.runId == runId
    }

    /** The stored checkpoint is one of a statement of the plan, as reviewed. */
    predicate Reviewed(plan: Plan, key: Key, digest: Journal.Digest) {
      var steps := plan.Steps(key.direction);
      var i := IndexOf(steps, key.op);
      && i >= 0 && 0 <= key.index < |steps[i].statements|
      && digest == Digest(key.direction, key.op, key.index, steps[i].statements[key.index].text)
    }

    /** The checkpoint was done, or its newest record says so now. */
    static ghost predicate Closes(before: seq<CheckRecord>, checks: seq<CheckRecord>, key: Key) {
      || Of(checks, key) == []
      || (Of(before, key) != [] && Final(Of(before, key)).body.content.mark == Done)
      || LastDone(checks, key)
    }

    /** Marks what one operation left open as done. */
    method CloseMarks(keys: set<Key>) returns (signal: Signal)
      requires Valid() && forall k :: k in keys ==> Vouched(ThePlan(), k, data)
      modifies this`faults, this`clock, this`lastVersion, this`checks, this`place
      ensures Valid() && Checked(checks) == Checked(old(checks)) && Keeps(old(place), place, keys)
      ensures signal.Ok? ==> forall k :: k in keys ==> Closes(old(checks), checks, k)
      ensures old(faults) == [] && old(Orderly()) ==> Orderly() && StaysShown(old(checks), checks) && ShownIn(checks, keys)
      ensures old(faults) == [] ==> signal.Ok? && faults == []
    {
      hide RunsSound, SentOnce, Truthful, Checked, LastEpoch, Of, Final, LastDone, Laid, Stands, InOrder, Vouched, Stops, Shown;
      var todo := keys;
      signal := Ok;
      while todo != {}
        invariant Valid() && todo <= keys && Checked(checks) == Checked(old(checks)) && Keeps(old(place), place, keys)
        invariant forall k :: k in todo ==> Of(checks, k) == Of(old(checks), k)
        invariant forall k :: k in keys - todo ==> Closes(old(checks), checks, k)
        invariant signal.Ok? && (old(faults) == [] ==> faults == [])
        invariant old(faults) == [] && old(Orderly()) ==> Orderly() && StaysShown(old(checks), checks) && ShownIn(checks, keys - todo)
      {
        var key :| key in todo;
        todo := todo - {key};
        var rows := Of(checks, key);
        ghost var earlier := checks;
        NoRowsOrChecked(key);
        if rows != [] && Final(rows).body.content.mark != Done {
          FinalMatches(key);
          NowClosed(key);
          place := ClosedTo(place, key);
          var r;
          signal, r := AppendCheck(Some(Final(rows)), key, Final(rows).body.content.(mark := Done));
          if checks != earlier {
            NowMarked(ThePlan(), earlier, r);
            SameChecked(earlier, r);
          }
          if !signal.Ok? { return; }
          DoneAppended(earlier, r);
          forall k | k in keys - todo ensures Closes(old(checks), checks, k) {
            ClosesStill(old(checks), earlier, r, k);
          }
          if Orderly() {
            ShownMore(earlier, r);
          }
        } else {
          ShownAlready(key);
        }
      }
      assert keys - todo == keys;
    }

    /** Reconciliation closes at most these, and changes nothing else. */
    static ghost predicate Keeps(p: Place, q: Place, keys: set<Key>) {
      q.intents == p.intents && q.missing == p.missing && p.closed <= q.closed <= p.closed + keys
    }

    static ghost predicate StaysShown(before: seq<CheckRecord>, checks: seq<CheckRecord>) {
      forall k :: Shown(before, k) ==> Shown(checks, k)
    }

    static ghost predicate ShownIn(checks: seq<CheckRecord>, keys: set<Key>) {
      forall k :: k in keys && k in Checked(checks) ==> Shown(checks, k)
    }

    lemma NoRowsOrChecked(key: Key)
      ensures Of(checks, key) == [] <==> key !in Checked(checks)
    {
      RowsAreChecked(checks, key);
      if Of(checks, key) == [] {
        NoRows(checks, key);
      }
    }

    /** The row that FINAL shows has the reviewed digest, and is the one to name. */
    lemma FinalMatches(key: Key)
      requires Valid() && Of(checks, key) != []
      ensures Matching(ThePlan(), key, Final(Of(checks, key)).body.content.digest)
      ensures Orderly() ==> TailOf(checkHash, checks, key) == Final(Of(checks, key)).checksum
    {
      hide RunsSound, Stands, Truthful, Phases, InLine;
      OfElements(checks, key);
      assert Final(Of(checks, key)) in Of(checks, key);
      if Orderly() {
        InOrderFinal(checkHash, checks, lastVersion, key);
      }
    }

    lemma NowClosed(key: Key)
      requires Valid() && key in Checked(checks) && Vouched(ThePlan(), key, data)
      ensures Laid(ThePlan(), runs, checks, ClosedTo(place, key)) && Stands(ThePlan(), ClosedTo(place, key), start, data)
    {
      hide RunsSound, Truthful, Phases, InLine, Stands, Vouched;
      CloseLaid(ThePlan(), runs, checks, place, key);
      CloseStands(ThePlan(), checks, place, start, data, key);
    }

    lemma ShownMore(earlier: seq<CheckRecord>, r: CheckRecord)
      requires Orderly() && checks == earlier + [r] && r.body.content.mark == Done
      ensures StaysShown(earlier, checks) && Shown(checks, r.body.key)
    {
      hide InOrder, Final;
      OfPush(earlier, r, r.body.key);
      InOrderFinal(checkHash, checks, lastVersion, r.body.key);
      DoneAppended(earlier, r);
    }

    lemma ShownAlready(key: Key)
      ensures Of(checks, key) != [] && Final(Of(checks, key)).body.content.mark == Done ==> Shown(checks, key)
    {
    }

    lemma ClosesStill(first: seq<CheckRecord>, checks: seq<CheckRecord>, r: CheckRecord, k: Key)
      requires r.body.content.mark == Done && (k == r.body.key || Closes(first, checks, k))
      ensures Closes(first, checks + [r], k)
    {
      hide Of, Final;
      DoneAppended(checks, r);
      OfPush(checks, r, k);
    }

    predicate RowReviewed(plan: Plan, key: Key)
      reads this`checks
    {
      Of(checks, key) != [] && Reviewed(plan, key, Final(Of(checks, key)).body.content.digest)
    }

    /** What a verified retry asks for. */
    ghost predicate Evidenced(plan: Plan, current: set<Key>)
      reads this`checks, this`data
    {
      forall k :: k in current ==> RowReviewed(plan, k) && Vouched(plan, k, data)
    }

    /** The evidence for a retry: every stored checkpoint is reviewed, every touched operation verified. */
    method Verify(plan: Plan, current: set<Key>) returns (signal: Signal)
      requires Valid() && plan == ThePlan()
      modifies this`faults, this`clock, this`lastVersion, this`checks, this`place
      ensures Valid() && Checked(checks) == Checked(old(checks)) && Keeps(old(place), place, current)
      ensures signal.Ok? ==> old(Evidenced(plan, current)) && UniqueIds(plan.upgrade) && UniqueIds(plan.rollback)
      ensures old(faults) == [] ==> faults == []
      ensures old(faults) == [] && old(Evidenced(plan, current)) && UniqueIds(plan.upgrade) && UniqueIds(plan.rollback) ==> signal.Ok?
      ensures old(faults) == [] && old(Orderly()) ==>
        Orderly() && StaysShown(old(checks), checks) && (signal.Ok? ==> ShownIn(checks, current))
    {
      hide RunsSound, SentOnce, Truthful, Checked, LastEpoch, RowReviewed, Vouched, UniqueIds, Closes, Laid, Stands, InOrder, Shown,
        ShownIn, Keeps;
      NothingClosed(current);
      if !UniqueIds(plan.upgrade) || !UniqueIds(plan.rollback) {
        return Raised(OtherError);
      }
      var rows := current;
      while rows != {}
        invariant Valid() && checks == old(checks) && rows <= current && place == old(place) && lastVersion == old(lastVersion)
        invariant forall k :: k in current - rows ==> old(RowReviewed(plan, k))
        invariant old(faults) == [] ==> faults == []
      {
        var key :| key in rows;
        rows := rows - {key};
        if !RowReviewed(plan, key) {
          return Raised(OtherError);
        }
        :- Probe();
      }
      signal := VerifyOperations(plan, current);
    }

    lemma NothingClosed(keys: set<Key>)
      ensures Keeps(place, place, keys) && StaysShown(checks, checks)
    {
    }

    /** Every touched operation: verified; then its checkpoints are marked done. */
    method VerifyOperations(plan: Plan, current: set<Key>) returns (signal: Signal)
      requires Valid() && plan == ThePlan()
      modifies this`faults, this`clock, this`lastVersion, this`checks, this`place
      ensures Valid() && Checked(checks) == Checked(old(checks)) && Keeps(old(place), place, current)
      ensures signal.Ok? ==> forall k :: k in current ==> Vouched(plan, k, data)
      ensures old(faults) == [] ==> faults == []
      ensures old(faults) == [] && (forall k :: k in current ==> Vouched(plan, k, data)) ==> signal.Ok?
      ensures old(faults) == [] && old(Orderly()) ==>
        Orderly() && StaysShown(old(checks), checks) && (signal.Ok? ==> ShownIn(checks, current))
    {
      hide RunsSound, SentOnce, Truthful, Checked, LastEpoch, Closes, Passes, Laid, Stands, InOrder, Shown;
      var touched := set k | k in current :: (k.direction, k.op);
      while touched != {}
        invariant Valid() && (old(faults) == [] ==> faults == [])
        invariant Checked(checks) == Checked(old(checks)) && Keeps(old(place), place, current)
        invariant forall o :: o in touched ==> exists k :: k in current && (k.direction, k.op) == o
        invariant forall k :: k in current && (k.direction, k.op) !in touched ==> Vouched(plan, k, data)
        invariant old(faults) == [] && old(Orderly()) ==>
          && Orderly() && StaysShown(old(checks), checks)
          && forall k :: k in current && (k.direction, k.op) !in touched && k in Checked(checks) ==> Shown(checks, k)
      {
        var operation :| operation in touched;
        touched := touched - {operation};
        var steps := plan.Steps(operation.0);
        var i := IndexOf(steps, operation.1);
        if i < 0 || steps[i].after == [] {
          return Raised(OtherError);
        }
        :- RunGuards(steps[i].after);
        // Recording the identity edges.
        :- Probe();
        :- CloseMarks(set k | k in current && k.direction == operation.0 && k.op == operation.1);
      }
      signal := Ok;
    }

    /** The latest run may have had effects that nobody has accounted for. */
    ghost predicate Doubtful()
      reads this`runs, this`checks
    {
      && Readable() && Latest().Some?
      && (Latest().value.status == Applying || Latest().value.status == UnknownRequiresReconciliation)
    }

    /** The reviewed plan is the attempted one, and the evidence for a retry is there. */
    ghost predicate MayRetry(plan: Option<Plan>)
      reads this`runs, this`checks, this`data
    {
      && Doubtful() && plan.Some? && plan.value.checksum == Latest().value.checksum
      && UniqueIds(plan.value.upgrade) && UniqueIds(plan.value.rollback)
      && Evidenced(plan.value, Left(Latest().value.epoch, Latest().value.runId))
    }

    /** What an inspection shows of a run: in doubt as such, and whether a retry goes on with it. */
    ghost predicate Shows(run: Run, visible: Status, retryAllowed: bool)
      reads this`runs
    {
      && visible == (if run.status in {Applying, UnknownRequiresReconciliation} then UnknownRequiresReconciliation else run.status)
      && (retryAllowed <==> run.status == FailedRetryable && run.error in {NoSideEffects, ReconciledVerified})
      && (run.direction == Upgrade || !run.baseline ==>
            (retryAllowed <==> Admit(Some(run), run.checksum, run.direction, false).Resume?))
    }

    /** Reconciliation that decides nothing: the status of the latest run, once its records have passed the check. */
    method Inspect() returns (signal: Signal, shown: Option<(Status, bool)>)
      requires Valid()
      modifies this`faults
      ensures signal.Ok? ==> Readable() && (shown.None? <==> LastEpoch(runs) == 0)
      ensures shown.Some? ==> Latest().Some? && Shows(Latest().value, shown.value.0, shown.value.1)
      ensures old(faults) == [] && Readable() ==> signal.Ok?
    {
      hide RunsSound, Of, LastEpoch, Readable, Final, Latest, Laid, Stands, SentOnce, Truthful, Admit, Stops, Shows;
      shown := None;
      var existing;
      signal, existing := ReadRun();
      if !signal.Ok? { return; }
      FoundIsLatest(existing);
      if existing.Some? {
        var run := existing.value.body.content;
        var visible := if run.status == Applying then UnknownRequiresReconciliation else run.status;
        shown := Some((visible, run.status == FailedRetryable && HasProof(run)));
        InspectionShows(existing.value);
      }
    }

    lemma InspectionShows(existing: RunRecord)
      requires Valid() && IsLast(existing) && LastEpoch(runs) > 0
      ensures
        var run := existing.body.content;
        var visible := if run.status == Applying then UnknownRequiresReconciliation else run.status;
        Shows(run, visible, run.status == FailedRetryable && HasProof(run))
    {
      hide RunsSound, Laid, Stands, SentOnce, Truthful, Of, LastEpoch, Chain, Begins, Ends, ReachedTo;
      RunIsBacked(existing);
    }

    /** `settled` is the status that the decision gave the run, if it did. */
    method Reconcile(plan: Option<Plan>, decision: Decision) returns (signal: Signal, settled: Option<Status>)
      requires Valid() && (plan.Some? ==> plan.value == catalog(plan.value.checksum))
      modifies this`faults, this`clock, this`lastVersion, this`runs, this`checks, this`place
      ensures Valid() && Advanced(runHash, old(runs), runs, false)
      ensures LastEpoch(runs) == LastEpoch(old(runs)) && ThePlan() == old(ThePlan())
      ensures Checked(checks) == Checked(old(checks))
      ensures place.intents == old(place).intents && place.missing == old(place).missing && old(place).closed <= place.closed
      ensures decision != VerifiedRetry ==> place == old(place)
      ensures settled.Some? ==>
        && old(Latest()).Some? && TopLog(runs) != []
        && TopLog(runs)[|TopLog(runs)| - 1].body.content ==
             if settled.value == Abandoned then old(Latest()).value.(status := Abandoned)
             else old(Latest()).value.(status := FailedRetryable, error := ReconciledVerified)
      ensures
        || settled == None
        || (settled == Some(Abandoned) && decision == Abandon && old(Doubtful()))
        || (settled == Some(FailedRetryable) && decision == VerifiedRetry && old(MayRetry(plan)))
      ensures old(faults) == [] && decision == Abandon && old(Doubtful()) ==> settled == Some(Abandoned)
      ensures old(faults) == [] && decision == VerifiedRetry && old(MayRetry(plan)) ==> settled == Some(FailedRetryable)
      ensures old(faults) == [] ==> faults == []
      ensures old(faults) == [] && old(Orderly()) ==> Orderly() && StaysShown(old(checks), checks)
      ensures old(faults) == [] && old(Orderly()) && settled == Some(FailedRetryable) ==>
        ShownIn(checks, old(Left(Latest().value.epoch, Latest().value.runId)))
    {
      hide RunsSound, Of, LastEpoch, Chain, Truthful, Advanced, SentOnce, Changes, Closed, Readable, Final,
        UniqueIds, Evidenced, Left, Latest, Laid, Stands, InOrder, Checked, Shown, ShownIn, Stops;
      NothingAdvanced(runHash, runs, false);
      NothingClosed({});
      settled := None;
      var existing;
      signal, existing := ReadRun();
      if !signal.Ok? { return; }
      FoundIsLatest(existing);
      if existing.None? || decision == Report { return; }
      var run := existing.value.body.content;
      if run.status != Applying && run.status != UnknownRequiresReconciliation {
        return Raised(OtherError), None;
      }
      if decision == Abandon {
        signal := Settle(existing.value, run.(status := Abandoned));
        settled := if signal.Ok? then Some(Abandoned) else None;
        return;
      }
      if plan.None? || plan.value.checksum != run.checksum {
        return Raised(OtherError), None;
      }
      PlanOfExisting(existing);
      signal := Verify(plan.value, Left(run.epoch, run.runId));
      if !signal.Ok? { return; }
      signal := Settle(existing.value, run.(status := FailedRetryable, error := ReconciledVerified));
      settled := if signal.Ok? then Some(FailedRetryable) else None;
    }

    /** The decision, appended to the run that was read. */
    method Settle(existing: RunRecord, run: Run) returns (signal: Signal)
      requires Valid() && IsLast(existing) && run.epoch == LastEpoch(runs)
      requires existing.body.content.status in {Applying, UnknownRequiresReconciliation}
      requires Allowed(existing.body.content, run) && !ClaimsNoEffects(run) && run.status in {Abandoned, FailedRetryable}
      modifies this`faults, this`clock, this`lastVersion, this`runs
      ensures Valid() && Advanced(runHash, old(runs), runs, false)
      ensures LastEpoch(runs) == LastEpoch(old(runs)) && ThePlan() == old(ThePlan())
      ensures signal.Ok? ==> TopLog(runs) != [] && TopLog(runs)[|TopLog(runs)| - 1].body.content == run
      ensures old(faults) == [] ==> signal.Ok? && faults == []
      ensures old(Orderly()) ==> Orderly()
    {
      hide RunsSound, Of, LastEpoch, Changes, SentOnce, Allowed, Laid, Stands, InOrder, Truthful, Backs, Stops;
      ghost var earlier := runs;
      RunIsBacked(existing);
      BacksNext(ThePlan(), LastEpoch(runs), place, existing.body.content, run);
      if Orderly() {
        NewestIsTail(existing);
      }
      var r;
      signal, r := AppendRun(Some(existing), run);
      if runs != earlier {
        ghost var log := TopLog(earlier) + [r];
        assert Continues(runHash, existing, r);
        AppendSound(runHash, earlier, existing, r);
        ChangesTop(earlier, runs, LastEpoch(earlier), log);
        TruthfulPush(runHash, earlier, runs, log, sent);
        assert !Closed(runHash, TopLog(earlier));
        ResumeAdvances(runHash, earlier, runs, log, false);
        AllowedChecksum(existing.body.content, run);
        RunAppended(earlier, r, existing, run.direction);
      } else {
        NothingAdvanced(runHash, runs, false);
      }
    }

    lemma AllowedChecksum(run: Run, next: Run)
      requires Allowed(run, next)
      ensures next.checksum == run.checksum
    {
    }

    // ---------- every history ----------

    /** Any commands, in any number of processes, against any environment and any clock. */
    method Operate(commands: seq<Command>)
      requires Valid() && forall i :: 0 <= i < |commands| ==> Honest(commands[i], catalog)
      modifies this
      ensures Valid() && old(sent) <= sent && old(runs) <= runs
      ensures forall e: nat :: e <= LastEpoch(old(runs)) && Closed(runHash, Of(old(runs), e)) ==> Of(runs, e) == Of(old(runs), e)
      ensures forall i, j :: 0 <= i < j < |sent| ==> sent[i] != sent[j]
      ensures forall e: nat :: Of(runs, e) != [] <==> 1 <= e <= LastEpoch(runs)
      ensures forall e: nat :: 1 <= e < LastEpoch(runs) ==> EndsRolledBack(runHash, Of(runs, e))
      ensures data == Fold(ThePlan(), place.intents, place.missing, start) && place.intents <= Line(ThePlan(), LastEpoch(runs))
      ensures forall i :: 0 <= i < |place.intents| && place.intents[i] in place.missing ==>
        i == |place.intents| - 1 || place.intents[i] in place.closed
    {
      hide RunsSound, Of, LastEpoch, Chain, Truthful, Advanced, SentOnce, Closed, Laid, Stands;
      KeepsClosedSelf(runHash, runs);
      for i := 0 to |commands|
        invariant Valid() && old(sent) <= sent && KeepsClosed(runHash, old(runs), runs)
      {
        ghost var before := runs;
        if commands[i].newProcess {
          lastVersion := 0;
        }
        match commands[i].action {
          case Migrate(plan, direction, baseline, reapply) =>
            assert Honest(commands[i], catalog);
            var _, _ := Execute(plan, direction, baseline, reapply);
            AdvancedKeepsClosed(runHash, before, runs, reapply);
          case Resolve(plan, decision) =>
            assert Honest(commands[i], catalog);
            var _, _ := Reconcile(plan, decision);
            AdvancedKeepsClosed(runHash, before, runs, false);
        }
        KeepsClosedJoin(runHash, old(runs), before, runs);
      }
      KeepsClosedMeans(runHash, old(runs), runs);
      ValidMeans();
    }

    lemma ValidMeans()
      requires Valid()
      ensures forall i, j :: 0 <= i < j < |sent| ==> sent[i] != sent[j]
      ensures forall e: nat :: Of(runs, e) != [] <==> 1 <= e <= LastEpoch(runs)
      ensures forall e: nat :: 1 <= e < LastEpoch(runs) ==> EndsRolledBack(runHash, Of(runs, e))
      ensures data == Fold(ThePlan(), place.intents, place.missing, start) && place.intents <= Line(ThePlan(), LastEpoch(runs))
      ensures forall i :: 0 <= i < |place.intents| && place.intents[i] in place.missing ==>
        i == |place.intents| - 1 || place.intents[i] in place.closed
    {
      hide EpochSound, Phases, LastEpoch, Of;
    }
  }

  datatype Decision = Report | Abandon | VerifiedRetry

  datatype Action =
    | Migrate(plan: Plan, direction: Direction, baseline: bool, reapply: bool)
    | Resolve(reviewed: Option<Plan>, decision: Decision)

  datatype Command = Command(newProcess: bool, action: Action)

  /** A checksum stands for one plan. */
  ghost predicate Honest(command: Command, catalog: string -> Plan) {
    match command.action
    case Migrate(plan, _, _, _) => plan == catalog(plan.checksum)
    case Resolve(reviewed, _) => reviewed.Some? ==> reviewed.value == catalog(reviewed.value.checksum)
  }

  /** Closed epochs are as they were. */
  ghost predicate KeepsClosed(h: RunHashing, runs: seq<RunRecord>, runs': seq<RunRecord>) {
    && runs <= runs' && LastEpoch(runs) <= LastEpoch(runs')
    && forall e: nat :: e <= LastEpoch(runs) && Closed(h, Of(runs, e)) ==> Of(runs', e) == Of(runs, e)
  }

  lemma KeepsClosedSelf(h: RunHashing, runs: seq<RunRecord>)
    ensures KeepsClosed(h, runs, runs)
  {
  }

  lemma KeepsClosedMeans(h: RunHashing, runs: seq<RunRecord>, runs': seq<RunRecord>)
    requires KeepsClosed(h, runs, runs')
    ensures runs <= runs'
    ensures forall e: nat :: e <= LastEpoch(runs) && Closed(h, Of(runs, e)) ==> Of(runs', e) == Of(runs, e)
  {
  }

  lemma AdvancedKeepsClosed(h: RunHashing, runs: seq<RunRecord>, runs': seq<RunRecord>, reapply: bool)
    requires Advanced(h, runs, runs', reapply)
    ensures KeepsClosed(h, runs, runs')
  {
    hide Closed, Of, LastEpoch, EndsRolledBack;
  }

  lemma KeepsClosedJoin(h: RunHashing, a: seq<RunRecord>, b: seq<RunRecord>, c: seq<RunRecord>)
    requires KeepsClosed(h, a, b) && KeepsClosed(h, b, c)
    ensures KeepsClosed(h, a, c)
  {
    hide Closed, Of, LastEpoch;
  }

  // ---------- what the journal guarantees ----------

  /** A retry that claims "no side effects", read from a journal that passes its check, is right. */
  lemma NoEffectsIsTrue(server: Server)
    requires server.Valid() && LastEpoch(server.runs) > 0
    requires Accepted(server.runHash, TopLog(server.runs)) && TopLog(server.runs) != []
    requires ClaimsNoEffects(Final(TopLog(server.runs)).body.content)
    ensures Untouched(server.sent, LastEpoch(server.runs), Final(TopLog(server.runs)).body.content.direction)
  {
    assert EpochSound(server.runHash, server.runs, LastEpoch(server.runs));
    AcceptedIsWhole(server.runHash, TopLog(server.runs));
  }

  /** In an epoch whose journal passes its check, no record follows a rollback or an abandoned run. */
  lemma ClosingIsFinal(server: Server, e: nat, i: nat)
    requires server.Valid() && Accepted(server.runHash, Of(server.runs, e)) && i < |Of(server.runs, e)|
    requires var status := Of(server.runs, e)[i].body.content.status; status == RolledBack || Terminal(status)
    ensures i == |Of(server.runs, e)| - 1
  {
    var log := Of(server.runs, e);
    assert EpochSound(server.runHash, server.runs, e);
    AcceptedIsWhole(server.runHash, log);
    assert i < |log| - 1 ==> Allowed(log[i].body.content, log[i + 1].body.content);
  }

  lemma CheckedGrows(checks: seq<CheckRecord>, checks': seq<CheckRecord>)
    requires checks <= checks'
    ensures Checked(checks) <= Checked(checks')
  {
    forall r | r in checks ensures r in checks' {
      var i :| 0 <= i < |checks| && checks[i] == r;
      assert checks'[i] == r;
    }
  }

  /** The newest record of the checkpoint says that its statement is done. */
  ghost predicate LastDone(checks: seq<CheckRecord>, key: Key) {
    var log := Of(checks, key);
    log != [] && log[|log| - 1].body.content.mark == Done
  }

  lemma DoneAppended(checks: seq<CheckRecord>, r: CheckRecord)
    requires r.body.content.mark == Done
    ensures LastDone(checks + [r], r.body.key)
    ensures forall k: Key :: k != r.body.key ==> Of(checks + [r], k) == Of(checks, k)
    ensures forall k :: LastDone(checks, k) ==> LastDone(checks + [r], k)
  {
    hide Of;
    forall k: Key ensures Of(checks + [r], k) == if k == r.body.key then Of(checks, k) + [r] else Of(checks, k) {
      OfPush(checks, r, k);
      assert Of(checks, k) + [] == Of(checks, k);
    }
  }

  lemma {:induction false} RowsAreChecked(checks: seq<CheckRecord>, key: Key)
    ensures Of(checks, key) != [] ==> key in Checked(checks)
  {
    if checks != [] {
      RowsAreChecked(checks[..|checks| - 1], key);
      assert checks == checks[..|checks| - 1] + [checks[|checks| - 1]];
    }
  }

  lemma {:induction false} NoRows(checks: seq<CheckRecord>, key: Key)
    requires Of(checks, key) == []
    ensures key !in Checked(checks)
  {
    if checks != [] {
      var rest := checks[..|checks| - 1];
      NoRows(rest, key);
      assert checks == rest + [checks[|checks| - 1]];
    }
  }

  /** The epoch's last record says that this run succeeded. */
  ghost predicate Concluded(log: seq<RunRecord>, baseline: bool, run: Run) {
    && log != []
    && log[|log| - 1].body.content == run.(status := if !baseline && run.direction == Rollback then RolledBack else AppliedSuccess,
                                           baseline := baseline)
  }

  /** The epoch that the admission names. */
  predicate IsEpoch(admission: Admission, epoch: nat) {
    (admission.Resume? || admission.Open?) && admission.epoch == epoch
  }

  /** An epoch is opened over another only when that one was rolled back and reapply was asked for. */
  lemma OpensAfterRollback(run: Run, checksum: string, direction: Direction, reapply: bool)
    requires Admit(Some(run), checksum, direction, reapply).Open?
    ensures run.status == RolledBack && reapply && direction == Upgrade
    ensures Admit(Some(run), checksum, direction, reapply).epoch == run.epoch + 1
  {
  }

  lemma OpenAdvances(h: RunHashing, runs: seq<RunRecord>, runs': seq<RunRecord>, r: RunRecord, reapply: bool)
    requires runs' == runs + [r] && Changes(runs, runs', LastEpoch(runs) + 1, [r])
    requires LastEpoch(runs) > 0 ==> reapply && EndsRolledBack(h, TopLog(runs))
    ensures Advanced(h, runs, runs', reapply)
  {
  }

  lemma ResumeAdvances(h: RunHashing, runs: seq<RunRecord>, runs': seq<RunRecord>, log: seq<RunRecord>, reapply: bool)
    requires runs <= runs' && Changes(runs, runs', LastEpoch(runs), log) && !Closed(h, TopLog(runs))
    ensures Advanced(h, runs, runs', reapply)
  {
  }

  lemma ChangesTop(runs: seq<RunRecord>, runs': seq<RunRecord>, top: nat, log: seq<RunRecord>)
    requires Changes(runs, runs', top, log)
    ensures LastEpoch(runs') == top && TopLog(runs') == log && log != []
  {
  }
}
