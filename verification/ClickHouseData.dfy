/** Where a ClickHouse migration stands: the order its statements are intended in, and what that makes of the user tables. */
module ClickHouseData {
  import opened Options
  import opened Plans
  import opened Journal
  import opened JournalSteps

  // ---------- the order of the statements ----------

  function StepKeys(e: nat, d: Direction, step: Step): (keys: seq<Key>)
    ensures |keys| == |step.statements|
    ensures forall i :: 0 <= i < |keys| ==> keys[i] == Key(e, d, step.id, i)
  {
    seq(|step.statements|, i => Key(e, d, step.id, i))
  }

  /** How many statements the steps before `k` have. */
  function Offset(steps: seq<Step>, k: nat): nat
    requires k <= |steps|
  {
    if k == 0 then 0 else Offset(steps, k - 1) + |steps[k - 1].statements|
  }

  function KeysBelow(e: nat, d: Direction, steps: seq<Step>, k: nat): (keys: seq<Key>)
    requires k <= |steps|
    ensures |keys| == Offset(steps, k)
  {
    if k == 0 then [] else KeysBelow(e, d, steps, k - 1) + StepKeys(e, d, steps[k - 1])
  }

  /** The statements of one direction, in plan order. */
  function Keys(plan: Plan, e: nat, d: Direction): seq<Key> {
    KeysBelow(e, d, plan.Steps(d), |plan.Steps(d)|)
  }

  /** The statements of all epochs up to `top`, each upgrade followed by its rollback. */
  function Line(plan: Plan, top: nat): seq<Key> {
    if top == 0 then [] else Line(plan, top - 1) + Keys(plan, top, Upgrade) + Keys(plan, top, Rollback)
  }

  /** Where a direction of the latest epoch begins in that line. */
  function Begins(plan: Plan, top: nat, d: Direction): nat
    requires top > 0
  {
    |Line(plan, top - 1)| + if d == Rollback then |Keys(plan, top, Upgrade)| else 0
  }

  function Ends(plan: Plan, top: nat, d: Direction): nat
    requires top > 0
  {
    Begins(plan, top, d) + |Keys(plan, top, d)|
  }

  lemma {:induction false} OffsetGrows(steps: seq<Step>, j: nat, k: nat)
    requires j <= k <= |steps|
    ensures Offset(steps, j) <= Offset(steps, k)
    ensures j < k ==> Offset(steps, j) + |steps[j].statements| <= Offset(steps, k)
  {
    if j < k {
      OffsetGrows(steps, j, k - 1);
    }
  }

  lemma {:induction false} KeysBelowAt(e: nat, d: Direction, steps: seq<Step>, k: nat, j: nat, i: nat)
    requires j < k <= |steps| && i < |steps[j].statements|
    ensures Offset(steps, j) + i < Offset(steps, k)
    ensures KeysBelow(e, d, steps, k)[Offset(steps, j) + i] == Key(e, d, steps[j].id, i)
  {
    OffsetGrows(steps, j, k);
    if j < k - 1 {
      KeysBelowAt(e, d, steps, k - 1, j, i);
    }
  }

  lemma {:induction false} KeysBelowIs(e: nat, d: Direction, steps: seq<Step>, k: nat, q: nat) returns (j: nat, i: nat)
    requires k <= |steps| && q < Offset(steps, k)
    ensures j < k && i < |steps[j].statements| && q == Offset(steps, j) + i
    ensures KeysBelow(e, d, steps, k)[q] == Key(e, d, steps[j].id, i)
  {
    if q >= Offset(steps, k - 1) {
      j, i := k - 1, q - Offset(steps, k - 1);
    } else {
      j, i := KeysBelowIs(e, d, steps, k - 1, q);
    }
  }

  lemma {:induction false} LineEpochs(plan: Plan, top: nat, q: nat)
    requires q < |Line(plan, top)|
    ensures 1 <= Line(plan, top)[q].epoch <= top
  {
    var before, up := Line(plan, top - 1), Keys(plan, top, Upgrade);
    if q < |before| {
      LineEpochs(plan, top - 1, q);
    } else if q < |before| + |up| {
      var _, _ := KeysBelowIs(top, Upgrade, plan.upgrade, |plan.upgrade|, q - |before|);
    } else {
      var _, _ := KeysBelowIs(top, Rollback, plan.rollback, |plan.rollback|, q - |before| - |up|);
    }
  }

  /** Statement `i` of the step at `k` has its place in the line, and nothing before it is the same. */
  lemma LineAt(plan: Plan, top: nat, d: Direction, k: nat, i: nat)
    requires top > 0 && k < |plan.Steps(d)| && i < |plan.Steps(d)[k].statements|
    ensures
      var p := Begins(plan, top, d) + Offset(plan.Steps(d), k) + i;
      && p < Ends(plan, top, d) <= |Line(plan, top)|
      && Line(plan, top)[p] == Key(top, d, plan.Steps(d)[k].id, i)
  {
    hide Line, KeysBelow, Offset, StepKeys, UniqueIds;
    LineParts(plan, top);
    KeysBelowAt(top, d, plan.Steps(d), |plan.Steps(d)|, k, i);
    InParts(Line(plan, top - 1), Keys(plan, top, Upgrade), Keys(plan, top, Rollback), Offset(plan.Steps(d), k) + i);
  }

  lemma LineParts(plan: Plan, top: nat)
    requires top > 0
    ensures Line(plan, top) == Line(plan, top - 1) + Keys(plan, top, Upgrade) + Keys(plan, top, Rollback)
  {
  }

  lemma InParts(a: seq<Key>, b: seq<Key>, c: seq<Key>, q: nat)
    ensures q < |b| ==> (a + b + c)[|a| + q] == b[q]
    ensures q < |c| ==> (a + b + c)[|a| + |b| + q] == c[q]
  {
  }

  /** A statement that comes earlier in its direction is another one. */
  lemma OtherPlace(steps: seq<Step>, k: nat, i: nat, h: nat, l: nat)
    requires k < |steps| && h < |steps| && UniqueIds(steps) && Offset(steps, h) + l < Offset(steps, k) + i
    ensures steps[h].id != steps[k].id || l < i
  {
    if h < k {
      assert steps[h].id != steps[k].id;
    } else if k < h {
      assert steps[k].id != steps[h].id;
    }
  }

  lemma KeyNotBefore(plan: Plan, top: nat, d: Direction, k: nat, i: nat, q: nat)
    requires top > 0 && k < |plan.Steps(d)| && i < |plan.Steps(d)[k].statements| && UniqueIds(plan.Steps(d))
    requires q < Begins(plan, top, d) + Offset(plan.Steps(d), k) + i
    ensures q < |Line(plan, top)| && Line(plan, top)[q] != Key(top, d, plan.Steps(d)[k].id, i)
  {
    hide Line, KeysBelow, Offset, StepKeys;
    LineAt(plan, top, d, k, i);
    LineParts(plan, top);
    var before, up := |Line(plan, top - 1)|, |Keys(plan, top, Upgrade)|;
    if q < before {
      LineEpochs(plan, top - 1, q);
      assert Line(plan, top)[q] == Line(plan, top - 1)[q];
    } else if q < before + up && d == Rollback {
      var _, _ := KeysBelowIs(top, Upgrade, plan.upgrade, |plan.upgrade|, q - before);
      InParts(Line(plan, top - 1), Keys(plan, top, Upgrade), Keys(plan, top, Rollback), q - before);
    } else {
      var p := q - Begins(plan, top, d);
      var h, l := KeysBelowIs(top, d, plan.Steps(d), |plan.Steps(d)|, p);
      InParts(Line(plan, top - 1), Keys(plan, top, Upgrade), Keys(plan, top, Rollback), p);
      OtherPlace(plan.Steps(d), k, i, h, l);
    }
  }

  // ---------- what they make of the user tables ----------

  /** The statement that a checkpoint stands for. */
  function StatementAt(plan: Plan, key: Key): Option<Statement> {
    var steps := plan.Steps(key.direction);
    var i := IndexOf(steps, key.op);
    if i >= 0 && 0 <= key.index < |steps[i].statements| then Some(steps[i].statements[key.index]) else None
  }

  /** Running the intended statements in order, but for those whose effect is missing. */
  function Fold(plan: Plan, keys: seq<Key>, missing: set<Key>, d: Data): Data {
    if keys == [] then d
    else
      var last := keys[|keys| - 1];
      var before := Fold(plan, keys[..|keys| - 1], missing, d);
      if last in missing || StatementAt(plan, last).None? then before else StatementAt(plan, last).value.effect(before)
  }

  lemma FoldPush(plan: Plan, keys: seq<Key>, key: Key, missing: set<Key>, d: Data)
    ensures Fold(plan, keys + [key], missing, d) ==
      if key in missing || StatementAt(plan, key).None? then Fold(plan, keys, missing, d)
      else StatementAt(plan, key).value.effect(Fold(plan, keys, missing, d))
  {
    assert (keys + [key])[..|keys|] == keys;
  }

  /** Only what is missing among these statements matters. */
  lemma {:induction false} FoldAgrees(plan: Plan, keys: seq<Key>, missing: set<Key>, missing': set<Key>, d: Data)
    requires forall key :: key in keys ==> (key in missing <==> key in missing')
    ensures Fold(plan, keys, missing, d) == Fold(plan, keys, missing', d)
  {
    if keys != [] {
      assert forall key :: key in keys[..|keys| - 1] ==> key in keys;
      FoldAgrees(plan, keys[..|keys| - 1], missing, missing', d);
    }
  }

  lemma {:induction false} FoldJoin(plan: Plan, a: seq<Key>, b: seq<Key>, missing: set<Key>, d: Data)
    ensures Fold(plan, a + b, missing, d) == Fold(plan, b, missing, Fold(plan, a, missing, d))
  {
    if b == [] {
      assert a + b == a;
    } else {
      var rest := b[..|b| - 1];
      assert (a + b)[..|a + b| - 1] == a + rest;
      FoldJoin(plan, a, rest, missing, d);
    }
  }

  lemma FoldNothing(plan: Plan, d: Data)
    ensures Fold(plan, [], {}, d) == d
  {
  }

  lemma {:induction false} FoldStep(plan: Plan, e: nat, dir: Direction, k: nat, i: nat, d: Data)
    requires k < |plan.Steps(dir)| && UniqueIds(plan.Steps(dir)) && i <= |plan.Steps(dir)[k].statements|
    ensures Fold(plan, StepKeys(e, dir, plan.Steps(dir)[k])[..i], {}, d) == Prefix(plan.Steps(dir)[k].statements, i, d)
  {
    var keys := StepKeys(e, dir, plan.Steps(dir)[k]);
    if i > 0 {
      FoldStep(plan, e, dir, k, i - 1, d);
      assert keys[..i] == keys[..i - 1] + [keys[i - 1]];
      FoldPush(plan, keys[..i - 1], keys[i - 1], {}, d);
      IndexOfUnique(plan.Steps(dir), k);
    }
  }

  lemma {:induction false} FoldSteps(plan: Plan, e: nat, dir: Direction, k: nat, d: Data)
    requires k <= |plan.Steps(dir)| && UniqueIds(plan.Steps(dir))
    ensures Fold(plan, KeysBelow(e, dir, plan.Steps(dir), k), {}, d) == RunSteps(plan.Steps(dir), k, d)
  {
    hide Fold, Prefix, StepKeys;
    if k == 0 {
      assert Fold(plan, [], {}, d) == d by {
        FoldNothing(plan, d);
      }
    } else {
      FoldSteps(plan, e, dir, k - 1, d);
      var keys := StepKeys(e, dir, plan.Steps(dir)[k - 1]);
      FoldJoin(plan, KeysBelow(e, dir, plan.Steps(dir), k - 1), keys, {}, d);
      FoldStep(plan, e, dir, k - 1, |keys|, RunSteps(plan.Steps(dir), k - 1, d));
      assert keys[..|keys|] == keys;
    }
  }

  /** With nothing missing, the statements of a direction are the whole of it. */
  lemma FoldIsWhole(plan: Plan, e: nat, dir: Direction, d: Data)
    requires UniqueIds(plan.Steps(dir))
    ensures Fold(plan, Keys(plan, e, dir), {}, d) == RunAll(plan.Steps(dir), d)
  {
    FoldSteps(plan, e, dir, |plan.Steps(dir)|, d);
  }

  // ---------- going on where a run stood ----------

  /** Running the statements from `c` up to `n`. */
  ghost function From(statements: seq<Statement>, c: nat, n: nat, d: Data): Data
    requires n <= |statements|
  {
    if n <= c then d else statements[n - 1].effect(From(statements, c, n - 1, d))
  }

  lemma {:induction false} FromStart(statements: seq<Statement>, n: nat, d: Data)
    requires n <= |statements|
    ensures From(statements, 0, n, d) == Prefix(statements, n, d)
  {
    if n > 0 {
      FromStart(statements, n - 1, d);
    }
  }

  lemma {:induction false} FromJoin(statements: seq<Statement>, c: nat, n: nat, d: Data)
    requires c <= n <= |statements|
    ensures From(statements, c, n, Prefix(statements, c, d)) == Prefix(statements, n, d)
  {
    if c < n {
      FromJoin(statements, c, n - 1, d);
    }
  }

  /** How many statements of the step at `k` are among the first `done` of the direction. */
  function Had(steps: seq<Step>, k: nat, done: nat): (c: nat)
    requires k < |steps|
    ensures c <= |steps[k].statements|
  {
    var n := |steps[k].statements|;
    if done <= Offset(steps, k) then 0 else if done - Offset(steps, k) >= n then n else done - Offset(steps, k)
  }

  /** The step at `k`, but for the statements it already has. */
  ghost function RunOnStep(steps: seq<Step>, k: nat, done: nat, d: Data): Data
    requires k < |steps|
  {
    From(steps[k].statements, Had(steps, k, done), |steps[k].statements|, d)
  }

  /** Running the steps from `k` on, but for the first `done` statements of the direction. */
  ghost function RunOn(steps: seq<Step>, k: nat, done: nat, d: Data): Data
    decreases |steps| - k
  {
    if k >= |steps| then d else RunOn(steps, k + 1, done, RunOnStep(steps, k, done, d))
  }

  /** And the guards of every step hold where that leads, those of steps that were finished before as well. */
  ghost predicate PassOn(steps: seq<Step>, k: nat, done: nat, d: Data)
    decreases |steps| - k
  {
    k < |steps| ==>
      && Passes(steps[k].before, d) && Passes(steps[k].after, RunOnStep(steps, k, done, d))
      && PassOn(steps, k + 1, done, RunOnStep(steps, k, done, d))
  }

  /** With nothing done before, that is the whole direction. */
  lemma {:induction false} RunOnWhole(steps: seq<Step>, k: nat, d: Data)
    requires k <= |steps|
    ensures RunOn(steps, k, 0, d) == RunRest(steps, k, d)
    decreases |steps| - k
  {
    if k < |steps| {
      FromStart(steps[k].statements, |steps[k].statements|, d);
      RunOnWhole(steps, k + 1, RunStep(steps[k], d));
    }
  }

  lemma RunOnAll(steps: seq<Step>, d: Data)
    ensures RunOn(steps, 0, 0, d) == RunAll(steps, d)
  {
    RunOnWhole(steps, 0, d);
    RestOfAll(steps, 0, d);
  }

  lemma {:induction false} PassOnSteps(steps: seq<Step>, k: nat, d: Data)
    requires k <= |steps|
    ensures PassOn(steps, k, 0, RunSteps(steps, k, d)) <==>
      forall j :: k <= j < |steps| ==> GuardsHold(steps[j], RunSteps(steps, j, d))
    decreases |steps| - k
  {
    if k < |steps| {
      var entry := RunSteps(steps, k, d);
      FromStart(steps[k].statements, |steps[k].statements|, entry);
      PassOnSteps(steps, k + 1, d);
      assert GuardsHold(steps[k], entry) <==> Passes(steps[k].before, entry) && Passes(steps[k].after, RunStep(steps[k], entry));
    }
  }

  lemma PassOnAll(steps: seq<Step>, d: Data)
    ensures PassOn(steps, 0, 0, d) <==> AllGuardsHold(steps, |steps|, d)
  {
    PassOnSteps(steps, 0, d);
    assert RunSteps(steps, 0, d) == d;
  }

  /** Finished steps do nothing; the step in progress runs its rest, and then every step after it the whole. */
  lemma {:induction false} RunOnSkips(steps: seq<Step>, j: nat, k: nat, done: nat, d: Data)
    requires j <= k < |steps| && Offset(steps, k) <= done <= Offset(steps, k) + |steps[k].statements|
    ensures
      var c := done - Offset(steps, k);
      RunOn(steps, j, done, d) == RunRest(steps, k + 1, From(steps[k].statements, c, |steps[k].statements|, d))
    decreases k - j
  {
    OffsetGrows(steps, j, k);
    if j < k {
      RunOnSkips(steps, j + 1, k, done, d);
    } else {
      RunOnLater(steps, k + 1, done, RunOnStep(steps, k, done, d));
    }
  }

  lemma {:induction false} RunOnLater(steps: seq<Step>, k: nat, done: nat, d: Data)
    requires k <= |steps| && done <= Offset(steps, k)
    ensures RunOn(steps, k, done, d) == RunRest(steps, k, d)
    decreases |steps| - k
  {
    if k < |steps| {
      FromStart(steps[k].statements, |steps[k].statements|, d);
      RunOnLater(steps, k + 1, done, RunStep(steps[k], d));
    }
  }
}
