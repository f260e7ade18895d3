/** A connection to a backend that commits DDL at once, with an environment that fails at will. */
module Connections {
  import opened Options
  import opened Plans
  import opened Journal
  import opened JournalSteps

  /**
   * What the environment does to one database action: nothing, an error before or after its effect,
   * or the death of the process before or after its effect.
   */
  datatype Fault = NoFault | FailsBefore | FailsAfter | DiesBefore | DiesAfter

  datatype Failure = OwnershipError | OtherError

  /** How an action ends. `Raised` is an exception, `Crashed` the end of the process. */
  datatype Signal = Ok | Raised(failure: Failure) | Crashed {
    predicate IsFailure() {
      !Ok?
    }
    function PropagateFailure(): Signal
      requires IsFailure()
    {
      this
    }
  }

  predicate Distinct(keys: seq<Key>) {
    forall i, j :: 0 <= i < j < |keys| ==> keys[i] != keys[j]
  }

  function WithEffect(s: Store, statement: Statement, key: Key, claimed: Option<int>): Store {
    s.(data := statement.effect(s.data),
       receipts := s.receipts + [Receipt(key, statement.affected(s.data), claimed)])
  }

  /** No statement of this epoch and direction was ever sent. */
  predicate Untouched(sent: seq<Key>, epoch: nat, direction: Direction) {
    forall key :: key in sent ==> !(key.epoch == epoch && key.direction == direction)
  }

  /**
   * The script in which all goes well for `n` actions, then one takes effect but is not heard of, by the
   * caller or because the process died, and nothing goes wrong after that.
   */
  predicate CutAt(faults: seq<Fault>, n: nat, last: Fault) {
    && faults != [] && (last.FailsAfter? || last.DiesAfter?)
    && if n == 0 then faults == [last] else faults[0].NoFault? && CutAt(faults[1..], n - 1, last)
  }

  /** Intent precedes effect: each statement sent has its checkpoint in the store. */
  ghost predicate Recorded(s: Store, sent: seq<Key>, freshId: nat) {
    && Distinct(sent)
    && (forall key :: key in sent ==> key in s.checkpoints)
    && (forall key :: key in s.checkpoints ==> s.checkpoints[key].runId < freshId)
    && (s.runs != [] ==>
          var run := Last(s);
          && run.runId < freshId
          && (run.status == FailedRetryable && run.error == NoSideEffects ==> Untouched(sent, run.epoch, run.direction)))
  }

  /** The row of a new run keeps what is on record. */
  lemma RecordedAnew(s: Store, t: Store, sent: seq<Key>, freshId: nat)
    requires Recorded(s, sent, freshId) && t.checkpoints == s.checkpoints
    requires t.runs != [] && Last(t).status == Applying && Last(t).runId == freshId
    ensures Recorded(s, sent, freshId + 1) && Recorded(t, sent, freshId + 1)
  {
  }

  /** So does a new checkpoint, whose statement was never sent. */
  lemma RecordedIntent(s: Store, sent: seq<Key>, freshId: nat, key: Key, row: Checkpoint)
    requires Recorded(s, sent, freshId) && key !in s.checkpoints && row.runId < freshId
    ensures Recorded(s.(checkpoints := s.checkpoints[key := row]), sent, freshId) && key !in sent
  {
  }

  /** So do changed marks, effects and events. */
  lemma RecordedMarks(s: Store, t: Store, sent: seq<Key>, freshId: nat)
    requires Recorded(s, sent, freshId) && t.runs == s.runs
    requires forall key: Key :: key in t.checkpoints <==> key in s.checkpoints
    requires forall key :: key in s.checkpoints ==> t.checkpoints[key].runId == s.checkpoints[key].runId
    ensures Recorded(t, sent, freshId)
  {
  }

  /** The run in progress has an identity that was drawn. */
  lemma RecordedRun(s: Store, sent: seq<Key>, freshId: nat)
    requires Recorded(s, sent, freshId) && s.runs != []
    ensures Last(s).runId < freshId
  {
  }

  class Connection {
    var durable: Store          // what has been committed
    var working: Store          // what this session sees
    var faults: seq<Fault>      // what the environment will do to the coming actions
    var freshId: nat            // the next run identity
    ghost var sent: seq<Key>    // every statement ever sent to the database, by any session
    ghost var progress: Progress  // where the durable store stands
    ghost var next: Progress      // where the session's view stands
    ghost var closed: set<Reviewed>  // the steps that a verified reconciliation declared finished

    constructor (empty: Store, script: seq<Fault>)
      requires empty.runs == [] && empty.checkpoints == map[] && empty.receipts == []
      ensures durable == working == empty && faults == script
      ensures sent == [] && closed == {}
      ensures forall plan :: Valid(plan)
    {
      durable, working, faults, freshId := empty, empty, script, 0;
      sent, closed, progress := [], {}, Progress(0, 0, 0, empty.data, 0, false, {});
      next := Progress(0, 0, 0, empty.data, 0, false, {});
    }

    ghost predicate Books(s: Store)
      reads this`sent, this`freshId
    {
      Recorded(s, sent, freshId)
    }

    ghost predicate Valid(plan: Plan)
      reads this
    {
      Inv(durable, plan, progress) && Books(durable) && progress.closed == closed
    }

    /** The session's view could be committed now. */
    ghost predicate Ready(plan: Plan)
      reads this
    {
      Inv(working, plan, next) && Books(working) && next.closed == closed
    }

    /** Nothing is waiting for a commit. */
    ghost predicate Clean(plan: Plan)
      reads this
    {
      Valid(plan) && working == durable && next == progress
    }

    method Draw() returns (fault: Fault)
      modifies this`faults
      ensures old(faults) == [] ==> fault == NoFault && faults == []
      ensures old(faults) != [] ==> fault == old(faults)[0] && faults == old(faults)[1..]
    {
      if faults == [] { return NoFault; }
      fault, faults := faults[0], faults[1..];
    }

    /** A read, a guard's query, a lock, or a caller's hook: it can fail, and changes nothing here. */
    method Probe() returns (r: Signal)
      modifies this`faults
      ensures r.Raised? ==> r.failure == OtherError
      ensures old(faults) == [] ==> r.Ok? && faults == []
      ensures forall n: nat, last :: n >= 1 && CutAt(old(faults), n, last) ==> r.Ok? && CutAt(faults, n - 1, last)
    {
      var fault := Draw();
      match fault
      case NoFault => r := Ok;
      case FailsBefore | FailsAfter => r := Raised(OtherError);
      case DiesBefore | DiesAfter => r := Crashed;
    }

    /** A write to the bookkeeping tables, which stays in the open transaction. */
    method Write(s: Store, ghost position: Progress) returns (r: Signal)
      modifies this`faults, this`working, this`next
      ensures r.Ok? ==> working == s && next == position
      ensures r.Raised? ==> r.failure == OtherError
      ensures old(faults) == [] ==> r.Ok? && faults == []
      ensures forall n: nat, last :: n >= 1 && CutAt(old(faults), n, last) ==> r.Ok? && CutAt(faults, n - 1, last)
    {
      r := Probe();
      if r.Ok? {
        working, next := s, position;
      }
    }

    /**
     * A commit that fails may still have taken effect. `unheard` is where the store then stands: a process
     * that lives on has lost the reply.
     */
    method Commit(ghost plan: Plan, ghost unheard: Progress) returns (r: Signal)
      requires Valid(plan) && Ready(plan) && Inv(working, plan, unheard) && unheard.closed == closed
      modifies this`faults, this`durable, this`progress
      ensures Valid(plan)
      ensures r.Ok? ==> Clean(plan)
      ensures !r.Ok? ==>
        || (durable == old(durable) && progress == old(progress))
        || (durable == working && progress == if r.Raised? then unheard else next)
      ensures r.Raised? ==> r.failure == OtherError
      ensures old(faults) == [] ==> r.Ok? && faults == []
      ensures forall n: nat, last :: n >= 1 && CutAt(old(faults), n, last) ==> r.Ok? && CutAt(faults, n - 1, last)
      ensures CutAt(old(faults), 0, FailsAfter) ==> r.Raised? && durable == working && progress == unheard && faults == []
      ensures CutAt(old(faults), 0, DiesAfter) ==> r.Crashed? && durable == working && progress == next && faults == []
    {
      hide Inv, Recorded;
      var fault := Draw();
      match fault
      case NoFault => durable, progress, r := working, next, Ok;
      case FailsBefore => r := Raised(OtherError);
      case FailsAfter => durable, progress, r := working, unheard, Raised(OtherError);
      case DiesBefore => r := Crashed;
      case DiesAfter => durable, progress, r := working, next, Crashed;
    }

    /** Writing to the bookkeeping tables and committing it. */
    method Save(ghost plan: Plan, s: Store, ghost position: Progress) returns (r: Signal)
      requires Valid(plan) && Inv(s, plan, position) && position.closed == closed && Books(s)
      modifies this`faults, this`durable, this`working, this`progress, this`next
      ensures Valid(plan)
      ensures r.Ok? ==> Clean(plan) && durable == s && progress == position
      ensures r.Raised? ==> r.failure == OtherError
      ensures (durable == old(durable) && progress == old(progress)) || (durable == s && progress == position)
      ensures old(faults) == [] ==> r.Ok? && faults == []
      ensures forall n: nat, last :: n >= 2 && CutAt(old(faults), n, last) ==> r.Ok? && CutAt(faults, n - 2, last)
    {
      hide Inv, Recorded, CutAt;
      :- Write(s, position);
      r := Commit(plan, next);
    }

    /**
     * Sending a statement to the database. The effect of a buffered one waits for a commit; any
     * other is durable at once, whatever the session is told.
     */
    method Send(statement: Statement, key: Key, claimed: Option<int>, ghost position: Progress)
      returns (r: Signal, affected: int)
      requires !statement.buffered ==> working == durable
      modifies this`faults, this`durable, this`working, this`sent, this`progress, this`next
      ensures sent == old(sent) + [key]
      ensures affected == statement.affected(old(working).data)
      ensures var after := WithEffect(old(working), statement, key, claimed);
        && (r.Ok? ==> working == after && next == position)
        && (statement.buffered ==> durable == old(durable) && progress == old(progress))
        && (!statement.buffered ==>
              || (durable == after && progress == position)
              || (!r.Ok? && durable == old(durable) && progress == old(progress)))
      ensures r.Raised? ==> r.failure == OtherError
      ensures old(faults) == [] ==> r.Ok? && faults == []
    {
      sent := sent + [key];
      affected := statement.affected(working.data);
      var after := WithEffect(working, statement, key, claimed);
      var fault := Draw();
      if fault.FailsBefore? || fault.DiesBefore? {
        r := if fault.FailsBefore? then Raised(OtherError) else Crashed;
      } else {
        working, next := after, position;
        if !statement.buffered {
          durable, progress := after, position;
        }
        r := if fault.NoFault? then Ok else if fault.FailsAfter? then Raised(OtherError) else Crashed;
      }
    }

    /** Dropping what is not committed: a rollback, or a new session after a crash. */
    method Discard()
      modifies this`working, this`next
      ensures working == durable && next == progress
    {
      working, next := durable, progress;
    }
  }
}
