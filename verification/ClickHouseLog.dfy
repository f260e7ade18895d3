/** The journal of the ClickHouse engine: run records and checkpoint records that are only ever appended. */
module ClickHouseLog {
  import opened Plans
  import opened Journal
  import opened HashChains
  import opened Connections

  type RunRecord = Record<nat, Run>
  type CheckRecord = Record<Key, Checkpoint>
  type RunHashing = Hashing<nat, Run>

  /** The greatest epoch. */
  function LastEpoch(runs: seq<RunRecord>): nat {
    if runs == [] then 0
    else
      var rest, last := LastEpoch(runs[..|runs| - 1]), runs[|runs| - 1].body.key;
      if last > rest then last else rest
  }

  function Checked(checks: seq<CheckRecord>): set<Key> {
    set r | r in checks :: r.body.key
  }

  /** What may follow a record within an epoch. Nothing follows a rollback or an abandoned run. */
  predicate Allowed(run: Run, next: Run) {
    && next.epoch == run.epoch && next.checksum == run.checksum
    && match run.status
       case Applying => next.direction == run.direction
       case UnknownRequiresReconciliation => next.direction == run.direction && next.status in {Abandoned, FailedRetryable}
       case FailedRetryable => next.direction == run.direction && next.status == Applying
       case AppliedSuccess =>
         || (next.status == Applying && next.direction == Rollback && !run.baseline)
         || (run.baseline && next.direction == run.direction && next.status in {FailedRetryable, UnknownRequiresReconciliation})
       case RolledBack | Abandoned | FailedFinal => false
  }

  // ---------- the invariant ----------

  ghost predicate Sealed(h: RunHashing, runs: seq<RunRecord>) {
    forall r :: r in runs ==> r.checksum == h.hash(r.body) && r.body.content.epoch == r.body.key
  }

  /** A whole chain tells a history in which every step was allowed. */
  ghost predicate History(h: RunHashing, log: seq<RunRecord>) {
    Chain(h, log) ==> forall i :: 0 <= i < |log| - 1 ==> Allowed(log[i].body.content, log[i + 1].body.content)
  }

  ghost predicate EpochSound(h: RunHashing, runs: seq<RunRecord>, epoch: nat) {
    Grounded(h, Of(runs, epoch)) && History(h, Of(runs, epoch))
  }

  /** LastEpoch are numbered from 1 without gaps. */
  ghost predicate Numbered(runs: seq<RunRecord>) {
    forall e: nat :: Of(runs, e) != [] <==> 1 <= e <= LastEpoch(runs)
  }

  /** The chain is whole and ends in a rollback. */
  ghost predicate EndsRolledBack(h: RunHashing, log: seq<RunRecord>) {
    log != [] && Chain(h, log) && log[|log| - 1].body.content.status == RolledBack
  }

  ghost predicate Past(h: RunHashing, runs: seq<RunRecord>) {
    forall e: nat :: 1 <= e < LastEpoch(runs) ==> EndsRolledBack(h, Of(runs, e))
  }

  ghost predicate ClaimsNoEffects(run: Run) {
    run.status == FailedRetryable && run.error == NoSideEffects
  }

  /** Where the latest epoch's chain is whole and ends in that claim, nothing of it was ever sent. */
  ghost predicate Truthful(h: RunHashing, runs: seq<RunRecord>, sent: seq<Key>) {
    var log := Of(runs, LastEpoch(runs));
    Chain(h, log) && log != [] && ClaimsNoEffects(log[|log| - 1].body.content) ==>
      Untouched(sent, LastEpoch(runs), log[|log| - 1].body.content.direction)
  }

  /** Each statement is sent at most once, and only after its checkpoint was written. */
  ghost predicate SentOnce(checks: seq<CheckRecord>, sent: seq<Key>) {
    Distinct(sent) && forall k :: k in sent ==> k in Checked(checks)
  }

  ghost predicate RunsSound(h: RunHashing, runs: seq<RunRecord>) {
    && Collisionless(h) && Sealed(h, runs)
    && (forall e: nat :: EpochSound(h, runs, e))
    && Numbered(runs) && Past(h, runs)
  }

  // ---------- appending to the latest epoch ----------

  lemma LastEpochPush(runs: seq<RunRecord>, r: RunRecord)
    ensures LastEpoch(runs + [r]) == if r.body.key > LastEpoch(runs) then r.body.key else LastEpoch(runs)
  {
    assert (runs + [r])[..|runs|] == runs;
  }

  lemma {:induction false} OfIn(runs: seq<RunRecord>, e: nat)
    ensures forall r :: r in Of(runs, e) <==> r in runs && r.body.key == e
  {
    if runs != [] {
      OfIn(runs[..|runs| - 1], e);
      assert runs == runs[..|runs| - 1] + [runs[|runs| - 1]];
    }
  }

  /** `r` follows `previous` and is sealed. */
  ghost predicate Continues(h: RunHashing, previous: RunRecord, r: RunRecord) {
    && r.body.key == previous.body.key && r.body.content.epoch == r.body.key
    && r.body.previous == previous.checksum && r.checksum == h.hash(r.body)
    && Allowed(previous.body.content, r.body.content)
  }

  lemma GroundedPush(h: RunHashing, log: seq<RunRecord>, r: RunRecord)
    requires Grounded(h, log) && r.checksum == h.hash(r.body)
    requires r.body.previous == h.empty || Names(log, r.body.previous)
    ensures Grounded(h, log + [r])
  {
    var longer := log + [r];
    forall i | 0 <= i < |longer|
      ensures longer[i].checksum == h.hash(longer[i].body)
      ensures longer[i].body.previous == h.empty || Names(longer[..i], longer[i].body.previous)
    {
      if i < |log| {
        assert longer[..i] == log[..i];
      } else {
        assert longer[..i] == log;
      }
    }
  }

  /** If the chain stays whole, the record named was the last one. */
  lemma NamedIsLast(h: RunHashing, log: seq<RunRecord>, previous: RunRecord, r: RunRecord)
    requires Collisionless(h) && Sealed(h, log) && previous in log && Chain(h, log + [r])
    requires r.body.previous == previous.checksum
    ensures Chain(h, log) && log[|log| - 1] == previous
  {
    ChainPush(h, log, r);
    var last := log[|log| - 1];
    assert last in log;
    assert last.checksum == h.hash(last.body) && previous.checksum == h.hash(previous.body);
  }

  lemma HistoryPush(h: RunHashing, log: seq<RunRecord>, previous: RunRecord, r: RunRecord)
    requires Collisionless(h) && Sealed(h, log) && previous in log && History(h, log) && Continues(h, previous, r)
    ensures History(h, log + [r])
  {
    hide Allowed;
    var longer := log + [r];
    if Chain(h, longer) {
      NamedIsLast(h, log, previous, r);
      forall i | 0 <= i < |longer| - 1 ensures Allowed(longer[i].body.content, longer[i + 1].body.content) {
        assert longer[i] == log[i];
        if i + 1 < |log| {
          assert longer[i + 1] == log[i + 1];
        }
      }
    }
  }

  lemma SealedOf(h: RunHashing, runs: seq<RunRecord>, e: nat)
    requires Sealed(h, runs)
    ensures Sealed(h, Of(runs, e))
  {
    OfIn(runs, e);
  }

  /** One epoch's records changed, the latest or the one after it. */
  ghost predicate Changes(runs: seq<RunRecord>, runs': seq<RunRecord>, top: nat, log: seq<RunRecord>) {
    && LastEpoch(runs') == top && log != []
    && forall e: nat :: Of(runs', e) == if e == top then log else Of(runs, e)
  }

  lemma Reassemble(h: RunHashing, runs: seq<RunRecord>, runs': seq<RunRecord>, top: nat, log: seq<RunRecord>)
    requires RunsSound(h, runs) && Sealed(h, runs') && Changes(runs, runs', top, log)
    requires Grounded(h, log) && History(h, log)
    requires top == LastEpoch(runs) > 0 || (top == LastEpoch(runs) + 1 && (top > 1 ==> EndsRolledBack(h, Of(runs, top - 1))))
    ensures RunsSound(h, runs')
  {
    hide Of, LastEpoch, Sealed, Collisionless, Grounded, History, EndsRolledBack;
    forall e: nat ensures EpochSound(h, runs', e) {
      assert EpochSound(h, runs, e);
    }
  }

  lemma PushChanges(runs: seq<RunRecord>, r: RunRecord)
    requires r.body.key >= LastEpoch(runs)
    ensures Changes(runs, runs + [r], r.body.key, Of(runs, r.body.key) + [r])
  {
    hide Of, LastEpoch;
    LastEpochPush(runs, r);
    forall e: nat ensures Of(runs + [r], e) == if e == r.body.key then Of(runs, e) + [r] else Of(runs, e) {
      OfPush(runs, r, e);
      assert Of(runs, e) + [] == Of(runs, e);
    }
  }

  lemma SealedPush(h: RunHashing, runs: seq<RunRecord>, r: RunRecord)
    requires Sealed(h, runs) && r.checksum == h.hash(r.body) && r.body.content.epoch == r.body.key
    ensures Sealed(h, runs + [r])
  {
  }

  /** Appending after a record of the latest epoch keeps the journal sound, and touches no other epoch. */
  lemma AppendSound(h: RunHashing, runs: seq<RunRecord>, previous: RunRecord, r: RunRecord)
    requires RunsSound(h, runs) && previous in runs && previous.body.key == LastEpoch(runs) && Continues(h, previous, r)
    ensures RunsSound(h, runs + [r]) && Changes(runs, runs + [r], LastEpoch(runs), Of(runs, LastEpoch(runs)) + [r])
  {
    hide Of, LastEpoch, Collisionless, Grounded, History, EndsRolledBack, Continues, Changes;
    var top := LastEpoch(runs);
    ContinuesKey(h, previous, r);
    PushChanges(runs, r);
    OfIn(runs, top);
    SealedOf(h, runs, top);
    assert EpochSound(h, runs, top);
    AppendEpoch(h, Of(runs, top), previous, r);
    SealedPush(h, runs, r);
    SomeEpoch(runs, previous);
    Reassemble(h, runs, runs + [r], top, Of(runs, top) + [r]);
  }

  lemma SomeEpoch(runs: seq<RunRecord>, previous: RunRecord)
    requires Numbered(runs) && previous in runs
    ensures LastEpoch(runs) > 0
  {
    OfIn(runs, previous.body.key);
    assert previous in Of(runs, previous.body.key);
  }

  lemma ContinuesKey(h: RunHashing, previous: RunRecord, r: RunRecord)
    requires Continues(h, previous, r)
    ensures r.body.key == previous.body.key == r.body.content.epoch && r.checksum == h.hash(r.body)
  {
  }

  lemma AppendEpoch(h: RunHashing, log: seq<RunRecord>, previous: RunRecord, r: RunRecord)
    requires Collisionless(h) && Sealed(h, log) && previous in log && Continues(h, previous, r)
    requires Grounded(h, log) && History(h, log)
    ensures Grounded(h, log + [r]) && History(h, log + [r])
  {
    HistoryPush(h, log, previous, r);
    var j :| 0 <= j < |log| && log[j] == previous;
    assert Names(log, r.body.previous);
    GroundedPush(h, log, r);
  }

  // ---------- opening an epoch ----------

  /** `r` is the first record of the epoch after the latest. */
  ghost predicate Opens(h: RunHashing, runs: seq<RunRecord>, r: RunRecord) {
    && r.body.key == LastEpoch(runs) + 1 == r.body.content.epoch
    && r.body.previous == h.empty && r.checksum == h.hash(r.body)
    && r.body.content.status == Applying
    && (LastEpoch(runs) > 0 ==> EndsRolledBack(h, Of(runs, LastEpoch(runs))))
  }

  lemma OpenSound(h: RunHashing, runs: seq<RunRecord>, r: RunRecord)
    requires RunsSound(h, runs) && Opens(h, runs, r)
    ensures RunsSound(h, runs + [r]) && Changes(runs, runs + [r], LastEpoch(runs) + 1, [r])
  {
    hide Of, LastEpoch, Collisionless, EndsRolledBack, Changes;
    var top := LastEpoch(runs) + 1;
    PushChanges(runs, r);
    assert Of(runs, top) == [];
    assert [] + [r] == [r];
    SealedPush(h, runs, r);
    Reassemble(h, runs, runs + [r], top, [r]);
  }

  lemma {:induction false} AllBelow(runs: seq<RunRecord>)
    ensures forall r :: r in runs ==> r.body.key <= LastEpoch(runs)
  {
    if runs != [] {
      AllBelow(runs[..|runs| - 1]);
      assert runs == runs[..|runs| - 1] + [runs[|runs| - 1]];
    }
  }

  // ---------- the records of one epoch ----------

  /** The checkpoint records of one epoch. */
  function ChecksOf(checks: seq<CheckRecord>, epoch: nat): seq<CheckRecord> {
    if checks == [] then []
    else
      var last := checks[|checks| - 1];
      ChecksOf(checks[..|checks| - 1], epoch) + if last.body.key.epoch == epoch then [last] else []
  }

  lemma OfPart<K(!new), C(!new)>(h: Hashing<K, C>, rows: seq<Record<K, C>>, key: K)
    requires ChainsValid(h, rows)
    ensures Chain(h, Of(rows, key)) && Of(Of(rows, key), key) == Of(rows, key)
  {
    ValidHasChain(h, rows, key);
    OfSameKey(Of(rows, key), key);
  }

  /** One epoch's run records are in order when all are. */
  lemma OfInOrder(h: RunHashing, runs: seq<RunRecord>, last: nat, epoch: nat)
    requires InOrder(h, runs, last)
    ensures InOrder(h, Of(runs, epoch), last)
  {
    hide Chain, ChainsValid, Of;
    var log := Of(runs, epoch);
    OfPart(h, runs, epoch);
    forall k: nat ensures Chain(h, Of(log, k)) {
      OfAgain(h, runs, epoch, k);
    }
    ChainsAreValid(h, log);
    OfAscends(runs, epoch);
    OfElements(runs, epoch);
    forall i | 0 <= i < |log| ensures log[i].body.version <= last {
      assert log[i] in runs;
    }
  }

  lemma OfAgain(h: RunHashing, runs: seq<RunRecord>, epoch: nat, k: nat)
    requires ChainsValid(h, runs)
    ensures Chain(h, Of(Of(runs, epoch), k))
  {
    OfPart(h, runs, epoch);
    if k != epoch {
      OfOther(Of(runs, epoch), k);
    }
  }

  lemma {:induction false} OfOther<K(!new), C(!new)>(rows: seq<Record<K, C>>, key: K)
    requires forall r :: r in rows ==> r.body.key != key
    ensures Of(rows, key) == []
  {
    if rows != [] {
      OfOther(rows[..|rows| - 1], key);
    }
  }

  lemma {:induction false} ChecksOfKey(checks: seq<CheckRecord>, epoch: nat, key: Key)
    ensures Of(ChecksOf(checks, epoch), key) == if key.epoch == epoch then Of(checks, key) else []
  {
    if checks != [] {
      var rest, last := checks[..|checks| - 1], checks[|checks| - 1];
      ChecksOfKey(rest, epoch, key);
      if last.body.key.epoch == epoch {
        OfPush(ChecksOf(rest, epoch), last, key);
      } else {
        assert ChecksOf(checks, epoch) == ChecksOf(rest, epoch);
      }
    }
  }

  lemma {:induction false} ChecksOfIn(checks: seq<CheckRecord>, epoch: nat)
    ensures forall r :: r in ChecksOf(checks, epoch) ==> r in checks
  {
    if checks != [] {
      ChecksOfIn(checks[..|checks| - 1], epoch);
    }
  }

  lemma {:induction false} ChecksOfAscend(checks: seq<CheckRecord>, epoch: nat)
    requires Strict(checks)
    ensures Strict(ChecksOf(checks, epoch))
  {
    if checks != [] {
      var rest := checks[..|checks| - 1];
      ChecksOfAscend(rest, epoch);
      ChecksOfIn(rest, epoch);
      var part := ChecksOf(rest, epoch);
      forall i | 0 <= i < |part| ensures part[i].body.version < checks[|checks| - 1].body.version {
        assert part[i] in rest;
      }
    }
  }

  /** One epoch's checkpoint records are in order when all are. */
  lemma EpochInOrder(h: Hashing<Key, Checkpoint>, checks: seq<CheckRecord>, last: nat, epoch: nat)
    requires InOrder(h, checks, last)
    ensures InOrder(h, ChecksOf(checks, epoch), last)
  {
    forall k: Key ensures Chain(h, Of(ChecksOf(checks, epoch), k)) {
      ChecksOfKey(checks, epoch, k);
      ValidHasChain(h, checks, k);
    }
    ChainsAreValid(h, ChecksOf(checks, epoch));
    ChecksOfAscend(checks, epoch);
    ChecksOfIn(checks, epoch);
    var part := ChecksOf(checks, epoch);
    forall i | 0 <= i < |part| ensures part[i].body.version <= last {
      assert part[i] in checks;
    }
  }

  lemma NoEpochYet(runs: seq<RunRecord>)
    ensures runs == [] ==> LastEpoch(runs) == 0
  {
  }
}
