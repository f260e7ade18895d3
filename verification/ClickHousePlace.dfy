/** What the append-only journal knows of a migration's progress, and how each write keeps it true. */
module ClickHousePlace {
  import opened Options
  import opened Plans
  import opened Journal
  import opened HashChains
  import opened Connections
  import opened ClickHouseLog
  import opened ClickHouseData

  /**
   * The statements that have a checkpoint, in the order they got it; those among them whose effect is not in the
   * user tables; and those that a reconciliation closed. Auxiliary: nothing reads it.
   */
  datatype Place = Place(intents: seq<Key>, missing: set<Key>, closed: set<Key>) {
    /** The last statement has its checkpoint and nothing more. */
    ghost predicate Dangling() {
      intents != [] && intents[|intents| - 1] in missing && intents[|intents| - 1] !in closed
    }
  }

  /** Every statement before this direction of the epoch is intended, and none of them is left dangling. */
  ghost predicate ReachedTo(p: Place, n: nat) {
    |p.intents| >= n && (|p.intents| == n ==> !p.Dangling())
  }

  /** How far the statements have come where the journal says this of the epoch. */
  ghost predicate Backs(plan: Plan, top: nat, p: Place, run: Run)
    requires top > 0
  {
    && (run.direction == Rollback || (run.status == AppliedSuccess && !run.baseline) ==> ReachedTo(p, Begins(plan, top, Rollback)))
    && (run.status == RolledBack ==> ReachedTo(p, Ends(plan, top, Rollback)))
    && (run.status == AppliedSuccess && !run.baseline ==> run.direction == Upgrade)
  }

  ghost predicate TurnedBack(runs: seq<RunRecord>, top: nat) {
    exists r :: r in runs && r.body.key == top && r.body.content.direction == Rollback
  }

  ghost predicate Phases(plan: Plan, runs: seq<RunRecord>, p: Place) {
    var top := LastEpoch(runs);
    top > 0 ==>
      && ReachedTo(p, Begins(plan, top, Upgrade))
      && (forall r :: r in runs && r.body.key == top ==> Backs(plan, top, p, r.body.content))
      && (|p.intents| > Begins(plan, top, Rollback) ==> TurnedBack(runs, top))
  }

  ghost predicate NoneDone(checks: seq<CheckRecord>, key: Key) {
    forall r :: r in checks && r.body.key == key ==> r.body.content.mark == Pending
  }

  /** The digest of a statement's checkpoint, as reviewed. */
  ghost predicate Matching(plan: Plan, key: Key, digest: Journal.Digest) {
    && StatementAt(plan, key).Some?
    && digest == Journal.Digest(key.direction, key.op, key.index, StatementAt(plan, key).value.text)
  }

  /** The checkpoint table holds exactly the intents; at most the last of them lacks its effect unless it was closed. */
  ghost predicate Tabled(plan: Plan, checks: seq<CheckRecord>, p: Place) {
    && (forall k :: k in Checked(checks) <==> k in p.intents) && Distinct(p.intents)
    && (forall k :: k in p.missing || k in p.closed ==> k in p.intents)
    && (forall r :: r in checks ==> Matching(plan, r.body.key, r.body.content.digest))
    && forall i :: 0 <= i < |p.intents| && p.intents[i] in p.missing && p.intents[i] !in p.closed ==>
         i == |p.intents| - 1 && NoneDone(checks, p.intents[i])
  }

  /** Statements are intended in the order of the line. */
  ghost predicate InLine(plan: Plan, top: nat, p: Place) {
    p.intents <= Line(plan, top)
  }

  ghost predicate OneChecksum(runs: seq<RunRecord>) {
    forall r :: r in runs ==> r.body.content.checksum == runs[0].body.content.checksum
  }

  ghost predicate Laid(plan: Plan, runs: seq<RunRecord>, checks: seq<CheckRecord>, p: Place) {
    InLine(plan, LastEpoch(runs), p) && Phases(plan, runs, p) && Tabled(plan, checks, p) && OneChecksum(runs)
  }

  /** The after-guards of a statement's step hold on these user tables. */
  ghost predicate Vouched(plan: Plan, key: Key, d: Data) {
    var i := IndexOf(plan.Steps(key.direction), key.op);
    i >= 0 && plan.Steps(key.direction)[i].after != [] && Passes(plan.Steps(key.direction)[i].after, d)
  }

  /**
   * The user tables are the effects of the intended statements in order, but for the missing ones; and a statement
   * that was closed without its effect was closed because the guards passed on what the ones before it leave.
   */
  ghost predicate Stands(plan: Plan, p: Place, start: Data, data: Data) {
    && data == Fold(plan, p.intents, p.missing, start)
    && forall i :: 0 <= i < |p.intents| && p.intents[i] in p.missing && p.intents[i] in p.closed ==>
         Vouched(plan, p.intents[i], Fold(plan, p.intents[..i + 1], p.missing, start))
  }

  // ---------- the writes ----------

  /** A statement of this direction may be intended now. */
  ghost predicate Within(plan: Plan, runs: seq<RunRecord>, p: Place, d: Direction)
  {
    var top := LastEpoch(runs);
    && top > 0
    && (d == Upgrade ==> |p.intents| <= Begins(plan, top, Rollback))
    && (d == Rollback ==> TurnedBack(runs, top))
  }

  function Intended(p: Place, key: Key): Place {
    Place(p.intents + [key], p.missing + {key}, p.closed)
  }

  /** The checkpoint of the next statement in the line. */
  lemma IntendLaid(plan: Plan, runs: seq<RunRecord>, checks: seq<CheckRecord>, p: Place, d: Direction, k: nat, i: nat, r: CheckRecord)
    requires Laid(plan, runs, checks, p) && Within(plan, runs, p, d) && !p.Dangling()
    requires k < |plan.Steps(d)| && i < |plan.Steps(d)[k].statements| && UniqueIds(plan.Steps(d))
    requires r.body.key == Key(LastEpoch(runs), d, plan.Steps(d)[k].id, i) && r.body.key !in Checked(checks)
    requires |p.intents| == Begins(plan, LastEpoch(runs), d) + Offset(plan.Steps(d), k) + i
    requires r.body.content.mark == Pending && Matching(plan, r.body.key, r.body.content.digest)
    ensures Laid(plan, runs, checks + [r], Intended(p, r.body.key))
  {
    hide Line, LastEpoch, Begins, Ends, UniqueIds, Matching, Backs, Phases, Tabled;
    LineAt(plan, LastEpoch(runs), d, k, i);
    IntendPhases(plan, runs, p, d, k, i, r.body.key);
    IntendTabled(plan, checks, p, r);
    var line := Line(plan, LastEpoch(runs));
    assert p.intents + [r.body.key] <= line;
  }

  lemma IntendPhases(plan: Plan, runs: seq<RunRecord>, p: Place, d: Direction, k: nat, i: nat, key: Key)
    requires Phases(plan, runs, p) && Within(plan, runs, p, d)
    requires k < |plan.Steps(d)| && i < |plan.Steps(d)[k].statements|
    requires |p.intents| == Begins(plan, LastEpoch(runs), d) + Offset(plan.Steps(d), k) + i
    ensures Phases(plan, runs, Intended(p, key))
  {
    hide LastEpoch, Line, Keys;
    var top, q := LastEpoch(runs), Intended(p, key);
    KeysBelowAt(top, d, plan.Steps(d), |plan.Steps(d)|, k, i);
    assert |p.intents| < Ends(plan, top, d) by {
      KeysLength(plan, top, d);
    }
    forall r | r in runs && r.body.key == top ensures Backs(plan, top, q, r.body.content) {
      assert Backs(plan, top, p, r.body.content);
    }
  }

  lemma KeysLength(plan: Plan, top: nat, d: Direction)
    ensures |Keys(plan, top, d)| == Offset(plan.Steps(d), |plan.Steps(d)|)
  {
  }

  lemma IntendTabled(plan: Plan, checks: seq<CheckRecord>, p: Place, r: CheckRecord)
    requires Tabled(plan, checks, p) && !p.Dangling() && r.body.key !in Checked(checks)
    requires r.body.content.mark == Pending && Matching(plan, r.body.key, r.body.content.digest)
    ensures Tabled(plan, checks + [r], Intended(p, r.body.key))
  {
    hide Matching;
    var q := Intended(p, r.body.key);
    assert Checked(checks + [r]) == Checked(checks) + {r.body.key};
  }

  lemma IntendStands(plan: Plan, p: Place, start: Data, data: Data, key: Key)
    requires Stands(plan, p, start, data) && key !in p.intents && key !in p.closed
    ensures Stands(plan, Intended(p, key), start, data)
  {
    hide Fold, Vouched;
    var q := Intended(p, key);
    FoldPush(plan, p.intents, key, q.missing, start);
    FoldAgrees(plan, p.intents, p.missing, q.missing, start);
    forall i | 0 <= i < |q.intents| && q.intents[i] in q.missing && q.intents[i] in q.closed
      ensures Vouched(plan, q.intents[i], Fold(plan, q.intents[..i + 1], q.missing, start))
    {
      assert q.intents[..i + 1] == p.intents[..i + 1];
      FoldAgrees(plan, p.intents[..i + 1], p.missing, q.missing, start);
    }
  }

  function Effected(p: Place, key: Key): Place {
    p.(missing := p.missing - {key})
  }

  /** The effect of the statement that was intended last. */
  lemma EffectLaid(plan: Plan, runs: seq<RunRecord>, checks: seq<CheckRecord>, p: Place, key: Key)
    requires Laid(plan, runs, checks, p)
    ensures Laid(plan, runs, checks, Effected(p, key))
  {
    hide Matching, LastEpoch;
    var q := Effected(p, key);
    if LastEpoch(runs) > 0 {
      forall r | r in runs && r.body.key == LastEpoch(runs) ensures Backs(plan, LastEpoch(runs), q, r.body.content) {
        assert Backs(plan, LastEpoch(runs), p, r.body.content);
      }
    }
  }

  lemma EffectStands(plan: Plan, p: Place, start: Data, data: Data, key: Key, statement: Statement)
    requires Stands(plan, p, start, data) && p.intents != [] && p.intents[|p.intents| - 1] == key && Distinct(p.intents)
    requires key in p.missing && key !in p.closed && StatementAt(plan, key) == Some(statement)
    ensures Stands(plan, Effected(p, key), start, statement.effect(data))
  {
    hide Fold, Vouched, StatementAt;
    var q, n := Effected(p, key), |p.intents| - 1;
    var before := p.intents[..n];
    assert p.intents == before + [key];
    FoldPush(plan, before, key, p.missing, start);
    FoldPush(plan, before, key, q.missing, start);
    FoldAgrees(plan, before, p.missing, q.missing, start);
    forall i | 0 <= i < |q.intents| && q.intents[i] in q.missing && q.intents[i] in q.closed
      ensures Vouched(plan, q.intents[i], Fold(plan, q.intents[..i + 1], q.missing, start))
    {
      assert q.intents[i] in p.missing;
      FoldAgrees(plan, p.intents[..i + 1], p.missing, q.missing, start);
    }
  }

  /** A further record of a checkpoint: done, where the effect is there or reconciliation has closed it. */
  lemma MarkLaid(plan: Plan, runs: seq<RunRecord>, checks: seq<CheckRecord>, p: Place, r: CheckRecord)
    requires Laid(plan, runs, checks, p) && r.body.key in Checked(checks) && Matching(plan, r.body.key, r.body.content.digest)
    requires r.body.key in p.missing ==> r.body.key in p.closed
    ensures Laid(plan, runs, checks + [r], p)
  {
    hide Phases, InLine, OneChecksum, Matching;
    assert Checked(checks + [r]) == Checked(checks);
  }

  function ClosedTo(p: Place, key: Key): Place {
    p.(closed := p.closed + {key})
  }

  /** Reconciliation closes a checkpoint. */
  lemma CloseLaid(plan: Plan, runs: seq<RunRecord>, checks: seq<CheckRecord>, p: Place, key: Key)
    requires Laid(plan, runs, checks, p) && key in Checked(checks)
    ensures Laid(plan, runs, checks, ClosedTo(p, key))
  {
    hide Matching, LastEpoch;
    var q := ClosedTo(p, key);
    if LastEpoch(runs) > 0 {
      forall r | r in runs && r.body.key == LastEpoch(runs) ensures Backs(plan, LastEpoch(runs), q, r.body.content) {
        assert Backs(plan, LastEpoch(runs), p, r.body.content);
      }
    }
  }

  lemma CloseStands(plan: Plan, checks: seq<CheckRecord>, p: Place, start: Data, data: Data, key: Key)
    requires Stands(plan, p, start, data) && Tabled(plan, checks, p) && Vouched(plan, key, data)
    ensures Stands(plan, ClosedTo(p, key), start, data)
  {
    hide Fold, Vouched, Matching, NoneDone;
    var q := ClosedTo(p, key);
    forall i | 0 <= i < |q.intents| && q.intents[i] in q.missing && q.intents[i] in q.closed
      ensures Vouched(plan, q.intents[i], Fold(plan, q.intents[..i + 1], q.missing, start))
    {
      if p.intents[i] !in p.closed {
        assert i == |p.intents| - 1 && p.intents[..i + 1] == p.intents;
      }
    }
  }

  /** A further record of the latest epoch. */
  lemma RunLaid(plan: Plan, runs: seq<RunRecord>, checks: seq<CheckRecord>, p: Place, r: RunRecord)
    requires Laid(plan, runs, checks, p) && LastEpoch(runs) == LastEpoch(runs + [r]) > 0 && runs != []
    requires r.body.content.checksum == runs[0].body.content.checksum
    requires r.body.key == LastEpoch(runs) ==> Backs(plan, LastEpoch(runs), p, r.body.content)
    ensures Laid(plan, runs + [r], checks, p)
    ensures TurnedBack(runs, LastEpoch(runs)) ==> TurnedBack(runs + [r], LastEpoch(runs))
  {
    hide Tabled, LastEpoch, Backs, InLine;
    var top := LastEpoch(runs);
    assert (runs + [r])[0] == runs[0];
    if TurnedBack(runs, top) {
      var old' :| old' in runs && old'.body.key == top && old'.body.content.direction == Rollback;
      assert old' in runs + [r];
    }
  }

  /** The first record of the next epoch: over nothing, or over a rollback. */
  lemma OpenLaid(plan: Plan, runs: seq<RunRecord>, checks: seq<CheckRecord>, p: Place, r: RunRecord)
    requires Laid(plan, runs, checks, p) && r.body.key == LastEpoch(runs + [r]) == LastEpoch(runs) + 1
    requires forall q :: q in runs ==> q.body.key <= LastEpoch(runs)
    requires runs != [] ==> r.body.content.checksum == runs[0].body.content.checksum
    requires r.body.content.direction == Upgrade && r.body.content.status == Applying
    requires LastEpoch(runs) > 0 ==> ReachedTo(p, Ends(plan, LastEpoch(runs), Rollback))
    ensures Laid(plan, runs + [r], checks, p)
    ensures |p.intents| == Begins(plan, LastEpoch(runs) + 1, Upgrade)
  {
    hide Tabled, LastEpoch, Keys;
    var top := LastEpoch(runs);
    assert Line(plan, top + 1) == Line(plan, top) + Keys(plan, top + 1, Upgrade) + Keys(plan, top + 1, Rollback);
    if top > 0 {
      assert |Line(plan, top)| == Ends(plan, top, Rollback);
    }
    assert p.intents == Line(plan, top);
    forall q | q in runs + [r] && q.body.key == top + 1 ensures Backs(plan, top + 1, p, q.body.content) {
      assert q == r;
    }
  }

  /** What backs a record backs the ones that may follow it without a new claim. */
  lemma BacksNext(plan: Plan, top: nat, p: Place, run: Run, next: Run)
    requires top > 0 && Backs(plan, top, p, run) && Allowed(run, next) && next.status !in {AppliedSuccess, RolledBack}
    ensures Backs(plan, top, p, next)
  {
  }

  /** Nothing missing but what was closed in good faith: guards that refuse every short state leave nothing missing. */
  ghost predicate Telling(plan: Plan, p: Place, start: Data) {
    forall i :: 0 <= i < |p.intents| && p.intents[i] in p.closed && StatementAt(plan, p.intents[i]).Some? ==>
      var short := Fold(plan, p.intents[..i], {}, start);
      Vouched(plan, p.intents[i], short) ==> StatementAt(plan, p.intents[i]).value.effect(short) == short
  }

  /** If the guards of every closed statement could tell that its effect was missing, none is. */
  lemma {:induction false} NothingMissing(plan: Plan, p: Place, start: Data, data: Data, n: nat)
    requires Stands(plan, p, start, data) && Telling(plan, p, start) && n <= |p.intents|
    requires forall i :: 0 <= i < n && p.intents[i] in p.missing ==> p.intents[i] in p.closed
    ensures Fold(plan, p.intents[..n], p.missing, start) == Fold(plan, p.intents[..n], {}, start)
  {
    hide Vouched, StatementAt, Fold;
    if n == 0 {
      assert p.intents[..0] == [];
      FoldEmpty(plan, p.missing, start);
      FoldEmpty(plan, {}, start);
    } else {
      NothingMissing(plan, p, start, data, n - 1);
      var key, before := p.intents[n - 1], p.intents[..n - 1];
      assert p.intents[..n] == before + [key];
      FoldPush(plan, before, key, p.missing, start);
      FoldPush(plan, before, key, {}, start);
      if key in p.missing && StatementAt(plan, key).Some? {
        assert p.intents[..n - 1 + 1] == p.intents[..n];
        assert Vouched(plan, key, Fold(plan, p.intents[..n - 1 + 1], p.missing, start));
      }
    }
  }

  lemma FoldEmpty(plan: Plan, missing: set<Key>, d: Data)
    ensures Fold(plan, [], missing, d) == d
  {
  }

  /** Under an upgrade record at the end of a whole chain nothing was ever turned back. */
  lemma {:induction false} UpgradeOnly(h: RunHashing, log: seq<RunRecord>, i: nat)
    requires Chain(h, log) && History(h, log) && i < |log|
    requires log[|log| - 1].body.content.direction == Upgrade
    ensures log[i].body.content.direction == Upgrade
    decreases |log| - i
  {
    hide Chain;
    if i < |log| - 1 {
      UpgradeOnly(h, log, i + 1);
      assert Allowed(log[i].body.content, log[i + 1].body.content);
    }
  }

  /** Before the first run there is nothing to say, whatever the plan. */
  lemma EmptyPlace(plan: Plan, plan': Plan, runs: seq<RunRecord>, checks: seq<CheckRecord>, p: Place)
    requires runs == [] && Laid(plan, runs, checks, p)
    ensures p == Place([], {}, {}) && Laid(plan', runs, checks, p)
  {
    if checks != [] {
      SomeChecked(checks);
    }
  }

  lemma SomeChecked(checks: seq<CheckRecord>)
    requires checks != []
    ensures exists k :: k in Checked(checks)
  {
    assert checks[0].body.key in Checked(checks);
  }
}
