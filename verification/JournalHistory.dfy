/** The journal protocol over whole histories of a nontransactional backend. */
module JournalHistory {
  import opened Plans
  import opened Journal
  import opened JournalSteps
  import opened JournalTheorems
  import opened Connections
  import opened Nontransactional

  /** With a rollback that undoes the upgrade, the latest row says what the user tables are, epoch after epoch. */
  ghost predicate Faithful(s: Store, plan: Plan, start: Data)
    requires s.runs != []
  {
    && (Last(s).status == AppliedSuccess && !Last(s).baseline ==> s.data == RunAll(plan.upgrade, start))
    && (Last(s).status == RolledBack ==> s.data == start)
  }

  /**
   * What the durable store says about the user tables, which were `start` when the journal began. The steps in
   * `closed`, and only those, were declared finished by a verified reconciliation.
   */
  ghost predicate Refines(s: Store, catalog: string -> Plan, start: Data, closed: set<Reviewed>) {
    if s.runs == [] then s.data == start
    else
      var run := Last(s);
      var plan := catalog(run.checksum);
      && s.runs[0].origin == start
      && (Trusted(plan, run, closed) ==>
            && (run.status == AppliedSuccess && !run.baseline ==> s.data == RunAll(plan.upgrade, run.origin))
            && (run.status == RolledBack ==> s.data == RunAll(plan.rollback, RunAll(plan.upgrade, run.origin))))
      && (TrustedFrom(plan, start, closed) && RunAll(plan.rollback, RunAll(plan.upgrade, start)) == start ==>
            Faithful(s, plan, start))
  }

  /** A plan that claims "no side effects" has sent nothing; every statement sent has its checkpoint. */
  ghost predicate Intended(db: Connection)
    reads db
  {
    && (forall key :: key in db.sent ==> key in db.durable.checkpoints)
    && (db.durable.runs != [] && Last(db.durable).status == FailedRetryable && Last(db.durable).error == NoSideEffects ==>
          Untouched(db.sent, Last(db.durable).epoch, Last(db.durable).direction))
  }

  lemma SoundMeans(db: Connection, catalog: string -> Plan)
    requires Sound(db, catalog)
    ensures db.durable.runs != [] ==> Refines(db.durable, catalog, Start(db.durable), db.closed)
    ensures Intended(db) && Distinct(db.sent)
  {
    var s, p := db.durable, db.progress;
    hide RunAll, Trusted, TrustedFrom, Inv;
    if s.runs != [] {
      var plan := catalog(Last(s).checksum);
      if Trusted(plan, Last(s), db.closed) && Last(s).status == AppliedSuccess && !Last(s).baseline {
        SuccessIsReplay(s, plan, p);
      }
      if Trusted(plan, Last(s), db.closed) && Last(s).status == RolledBack {
        RollbackIsReplay(s, plan, p);
      }
      if TrustedFrom(plan, Start(s), db.closed) && RunAll(plan.rollback, RunAll(plan.upgrade, Start(s))) == Start(s) {
        StatusDeterminesData(s, plan, p);
      }
    }
  }

  /**
   * From an empty journal, over every sequence of runs and reconciliations and every script of errors and
   * crashes: a success means that the plan ran once, in order, and no statement was ever sent twice. Guards
   * are trusted only for the steps that a verified retry closed; without one there is nothing to trust.
   */
  method EveryHistory(empty: Store, script: seq<Fault>, commands: seq<Command>, ghost catalog: string -> Plan)
    returns (db: Connection)
    requires empty.runs == [] && empty.checkpoints == map[] && empty.receipts == []
    requires forall i :: 0 <= i < |commands| ==> Honest(commands[i], catalog)
    ensures Refines(db.durable, catalog, empty.data, db.closed)
    ensures (forall i :: 0 <= i < |commands| ==> !Retries(commands[i])) ==> db.closed == {}
    ensures Intended(db) && Distinct(db.sent)
  {
    db := new Connection(empty, script);
    Operate(db, commands, catalog);
    SoundMeans(db, catalog);
  }

  /** And where nothing fails, a plan whose guards and claims hold is applied, in full. */
  method CleanUpgrade(empty: Store, plan: Plan, ghost catalog: string -> Plan) returns (db: Connection, o: Outcome)
    requires empty.runs == [] && empty.checkpoints == map[] && empty.receipts == []
    requires plan == catalog(plan.checksum) && UniqueIds(plan.upgrade)
    requires StepsPass(Upgrade, plan.upgrade, 0, empty.data)
    ensures o == Completed(AppliedSuccess)
    ensures db.durable.data == RunAll(plan.upgrade, empty.data)
    ensures db.durable.runs != [] && Last(db.durable).status == AppliedSuccess
  {
    db := new Connection(empty, []);
    ghost var p := db.progress;
    hide UniqueIds, StepsPass, RunAll;
    assert WillRun(empty, p, plan, Upgrade, false, false);
    WholeResult(empty, p, plan, Upgrade, false);
    o := Execute(db, plan, Upgrade, false, false, catalog);
  }
}
