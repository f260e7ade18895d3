/** Frozen data plans: what a reviewed migration asks the database to do. */
module Plans {
  import opened Options

  /** The user tables of the database. Nothing is known about them. */
  type Data(!new)

  datatype Direction = Upgrade | Rollback

  datatype Keyword = Insert | Update | Delete | OtherKeyword

  /**
   * One SQL statement. `effect` and `affected` are what it does to the user tables and the row
   * count it reports. A statement is `buffered` when its effect stays in the open transaction until
   * a commit (DML on a transactional table); DDL, and DML on other tables, is durable at once.
   * `claim` is the frozen insert-ownership proof: how many rows the migration claims to insert.
   */
  datatype Statement = Statement(
    text: string,
    keyword: Keyword,
    buffered: bool,
    effect: Data -> Data,
    affected: Data -> int,
    claim: Option<Data -> int>)

  /** One execution step. `generated` says that the step carries its own step identity. */
  datatype Step = Step(
    id: string,
    generated: bool,
    statements: seq<Statement>,
    before: seq<Data -> bool>,
    after: seq<Data -> bool>)

  datatype Plan = Plan(checksum: string, irreversible: bool, upgrade: seq<Step>, rollback: seq<Step>)
  {
    function Steps(direction: Direction): seq<Step> {
      if direction == Upgrade then upgrade else rollback
    }
  }

  /** The position of the step with the given identity, or -1. */
  function IndexOf(steps: seq<Step>, id: string): (i: int)
    ensures -1 <= i < |steps|
    ensures i >= 0 ==> steps[i].id == id && forall h :: 0 <= h < i ==> steps[h].id != id
    ensures i < 0 ==> forall h :: 0 <= h < |steps| ==> steps[h].id != id
  {
    if steps == [] then -1
    else if steps[0].id == id then 0
    else
      var rest := IndexOf(steps[1..], id);
      assert forall h :: 0 < h < |steps| ==> steps[h] == steps[1..][h - 1];
      if rest < 0 then -1 else rest + 1
  }

  predicate UniqueIds(steps: seq<Step>) {
    forall i, j :: 0 <= i < j < |steps| ==> steps[i].id != steps[j].id
  }

  /** The statement indexes a finished step has checkpoints for: -1 stands for a step without SQL. */
  predicate Expected(step: Step, index: int) {
    if step.statements == [] then index == -1 else 0 <= index < |step.statements|
  }

  predicate Passes(guards: seq<Data -> bool>, d: Data) {
    forall i :: 0 <= i < |guards| ==> guards[i](d)
  }

  /** Running the first `n` statements, each once and in order. */
  ghost function Prefix(statements: seq<Statement>, n: nat, d: Data): Data
    requires n <= |statements|
  {
    if n == 0 then d else statements[n - 1].effect(Prefix(statements, n - 1, d))
  }

  ghost function RunStep(step: Step, d: Data): Data {
    Prefix(step.statements, |step.statements|, d)
  }

  /** Running the first `n` steps, each once and in order: the meaning of a plan direction. */
  ghost function RunSteps(steps: seq<Step>, n: nat, d: Data): Data
    requires n <= |steps|
  {
    if n == 0 then d else RunStep(steps[n - 1], RunSteps(steps, n - 1, d))
  }

  ghost function RunAll(steps: seq<Step>, d: Data): Data {
    RunSteps(steps, |steps|, d)
  }

  /** A rollback step whose statements are all DML runs in one transaction under row locks. */
  predicate Locked(direction: Direction, step: Step) {
    && direction == Rollback
    && step.generated
    && step.statements != []
    && forall i :: 0 <= i < |step.statements| ==> step.statements[i].keyword != OtherKeyword
  }

  /** No insert-ownership proof stands between the last possible crash and reconciliation. */
  predicate Unproven(direction: Direction, step: Step)
    requires step.statements != []
  {
    if Locked(direction, step)
    then forall i :: 0 <= i < |step.statements| ==> step.statements[i].claim.None?
    else step.statements[|step.statements| - 1].claim.None?
  }

  /** How many statements of a step are durable when every checkpoint is but the last effect is lost. */
  function Short(direction: Direction, step: Step): nat
    requires step.statements != []
  {
    if Locked(direction, step) then 0 else |step.statements| - 1
  }

  /**
   * The after-guards of a step tell its whole effect from the only other state reconciliation can
   * meet with a complete set of checkpoints: all but the last statement, or nothing under locks.
   */
  ghost predicate Discriminates(direction: Direction, step: Step, d: Data) {
    step.statements != [] && step.after != [] && Unproven(direction, step) ==>
      var short := Prefix(step.statements, Short(direction, step), d);
      Passes(step.after, short) ==> short == RunStep(step, d)
  }

  /** Running the steps from `k` on. */
  ghost function RunRest(steps: seq<Step>, k: nat, d: Data): Data
    decreases |steps| - k
  {
    if k >= |steps| then d else RunRest(steps, k + 1, RunStep(steps[k], d))
  }

  lemma {:induction false} RestOfAll(steps: seq<Step>, k: nat, d: Data)
    requires k <= |steps|
    ensures RunRest(steps, k, RunSteps(steps, k, d)) == RunAll(steps, d)
    decreases |steps| - k
  {
    if k < |steps| {
      RestOfAll(steps, k + 1, d);
    }
  }

  // ---------- when nothing stands in the way ----------

  ghost predicate GuardsHold(step: Step, d: Data) {
    Passes(step.before, d) && Passes(step.after, RunStep(step, d))
  }

  /** The guards of the first `n` steps hold, each on what the steps before it leave. */
  ghost predicate AllGuardsHold(steps: seq<Step>, n: nat, d: Data)
    requires n <= |steps|
  {
    forall k :: 0 <= k < n ==> GuardsHold(steps[k], RunSteps(steps, k, d))
  }

  /** The insert-ownership proof of a statement can be made. */
  ghost predicate Claimable(statement: Statement, d: Data) {
    statement.claim.Some? ==> statement.keyword == Insert && statement.buffered && statement.claim.value(d) >= 0
  }

  /** And its row count is the claimed one. */
  ghost predicate ClaimMet(statement: Statement, d: Data) {
    Claimable(statement, d) && (statement.claim.Some? ==> statement.affected(d) == statement.claim.value(d))
  }

  ghost predicate ClaimsMet(step: Step, d: Data) {
    forall i :: 0 <= i < |step.statements| ==> ClaimMet(step.statements[i], Prefix(step.statements, i, d))
  }

  predicate AllBuffered(step: Step) {
    forall i :: 0 <= i < |step.statements| ==> step.statements[i].buffered
  }

  /** Every guard, claim and lock of the step holds on these user tables. */
  ghost predicate StepPasses(direction: Direction, step: Step, d: Data) {
    && GuardsHold(step, d) && ClaimsMet(step, d)
    && (Locked(direction, step) ==> AllBuffered(step))
  }

  /** Statement `i` is the first whose row count is not the claimed one, although the proof could be made. */
  ghost predicate UnmetAt(statements: seq<Statement>, i: nat, d: Data) {
    && i < |statements|
    && (forall h :: 0 <= h < i ==> ClaimMet(statements[h], Prefix(statements, h, d)))
    && Claimable(statements[i], Prefix(statements, i, d)) && !ClaimMet(statements[i], Prefix(statements, i, d))
  }

  /** The step gets as far as a statement that does not affect the rows it claims. */
  ghost predicate StepDisowned(direction: Direction, step: Step, d: Data) {
    && Passes(step.before, d) && (Locked(direction, step) ==> AllBuffered(step))
    && exists i :: UnmetAt(step.statements, i, d)
  }

  /** One of the steps from `k` on does, and those before it pass. */
  ghost predicate StepsDisowned(direction: Direction, steps: seq<Step>, k: nat, d: Data)
    decreases |steps| - k
  {
    && k < |steps|
    && (|| StepDisowned(direction, steps[k], d)
        || (StepPasses(direction, steps[k], d) && StepsDisowned(direction, steps, k + 1, RunStep(steps[k], d))))
  }

  /** And so for the steps from `k` on, each on what the one before leaves. */
  ghost predicate StepsPass(direction: Direction, steps: seq<Step>, k: nat, d: Data)
    decreases |steps| - k
  {
    k < |steps| ==> StepPasses(direction, steps[k], d) && StepsPass(direction, steps, k + 1, RunStep(steps[k], d))
  }

  /** The user tables a direction starts from, given what they were when the epoch opened. */
  ghost function Base(plan: Plan, direction: Direction, origin: Data): Data {
    if direction == Upgrade then origin else RunAll(plan.upgrade, origin)
  }
}
