/** The syntactic prover behind partial expressions, and why it is sound in three-valued logic. */
module Implication {
  import opened Options
  import opened Expressions

  /** Equal, up to the order and repetition of the members of an IN list. */
  predicate SameAst(left: Ast, right: Ast) {
    if left.In? && right.In? && SameAst(left.source, right.source)
    then Elements(left.values) == Elements(right.values)
    else left == right
  }

  function Elements(es: seq<Ast>): (r: set<Ast>)
    ensures forall e :: e in r <==> e in es
  {
    set e | e in es
  }

  predicate Implies(domain: Ast, goal: Ast)
    decreases domain, goal
  {
    || SameAst(domain, goal)
    || (if domain.And? then Implies(domain.left, goal) || Implies(domain.right, goal)
        else if domain.Or? then Implies(domain.left, goal) && Implies(domain.right, goal)
        else if goal.Or? then Implies(domain, goal.left) || Implies(domain, goal.right)
        else false)
  }

  function AnyOf(whens: seq<Branch>): Ast
    requires whens != []
  {
    if |whens| == 1 then whens[0].when else Or(AnyOf(whens[..|whens| - 1]), whens[|whens| - 1].when)
  }

  /** What a row must satisfy for a CASE or mapping without ELSE to take a branch. */
  function PartialCoverage(e: Ast): Option<Ast> {
    if e.Case? && e.otherwise.None? && e.whens != [] then Some(AnyOf(e.whens))
    else if e.Mapping? && e.otherwise.None? then Some(In(e.source, Keys(e.entries)))
    else None
  }

  function Keys(entries: seq<Branch>): (keys: seq<Ast>)
    ensures |keys| == |entries|
    ensures forall i :: 0 <= i < |keys| ==> keys[i] == entries[i].when
  {
    if entries == [] then [] else [entries[0].when] + Keys(entries[1..])
  }

  /** Every node of an expression, at any depth. */
  function Nodes(e: Ast): (r: set<Ast>)
    ensures e in r
    decreases e, 1
  {
    {e} +
    match e
    case Column(_, _) | Literal(_) | Parameter(_, _) => {}
    case Arith(_, l, r) => Nodes(l) + Nodes(r)
    case Compare(_, l, r) => Nodes(l) + Nodes(r)
    case And(l, r) => Nodes(l) + Nodes(r)
    case Or(l, r) => Nodes(l) + Nodes(r)
    case Is(_, l, r) => Nodes(l) + Nodes(r)
    case Not(a) => Nodes(a)
    case Neg(a) => Nodes(a)
    case Cast(a, _) => Nodes(a)
    case In(source, values) => Nodes(source) + NodesOfAll(values)
    case Function(_, args) => NodesOfAll(args)
    case Case(whens, otherwise) =>
      NodesOfBranches(whens) + (if otherwise.Some? then Nodes(otherwise.value) else {})
    case Mapping(source, entries, otherwise) =>
      Nodes(source) + NodesOfBranches(entries) + (if otherwise.Some? then Nodes(otherwise.value) else {})
  }

  function NodesOfAll(es: seq<Ast>): set<Ast>
    decreases es, 0
  {
    if es == [] then {} else Nodes(es[0]) + NodesOfAll(es[1..])
  }

  function NodesOfBranches(branches: seq<Branch>): set<Ast>
    decreases branches, 0
  {
    if branches == [] then {}
    else
      var first := branches[0];
      assert first.when < first && first.then_ < first;
      Nodes(first.when) + Nodes(first.then_) + NodesOfBranches(branches[1..])
  }

  /** The domain implies the coverage of every partial node. */
  predicate CoverageProven(domain: Ast, e: Ast) {
    forall n :: n in Nodes(e) && PartialCoverage(n).Some? ==> Implies(domain, PartialCoverage(n).value)
  }

  // ---------- soundness ----------

  /** IN yields a value exactly when every member can be compared with the source. */
  ghost predicate Settled(v: Value, items: seq<Outcome>) {
    forall i :: 0 <= i < |items| ==> items[i].Ok? && Comparable(v, items[i].value)
  }

  ghost predicate Hit(v: Value, items: seq<Outcome>) {
    exists i :: 0 <= i < |items| && items[i].Ok? && !v.Null? && !items[i].value.Null? && Same(v, items[i].value)
  }

  ghost predicate Unsure(v: Value, items: seq<Outcome>) {
    exists i :: 0 <= i < |items| && items[i].Ok? && (v.Null? || items[i].value.Null?)
  }

  lemma ConsMembers(v: Value, first: Outcome, rest: seq<Outcome>)
    ensures Settled(v, [first] + rest) <==> first.Ok? && Comparable(v, first.value) && Settled(v, rest)
    ensures Hit(v, [first] + rest) <==>
      (first.Ok? && !v.Null? && !first.value.Null? && Same(v, first.value)) || Hit(v, rest)
    ensures Unsure(v, [first] + rest) <==> (first.Ok? && (v.Null? || first.value.Null?)) || Unsure(v, rest)
  {
    var items := [first] + rest;
    assert items[0] == first && forall i :: 0 <= i < |rest| ==> rest[i] == items[i + 1];
    assert forall i :: 0 < i < |items| ==> items[i] == rest[i - 1];
  }

  /** IN depends only on which members there are: TRUE on a hit, else NULL when one is unknown. */
  lemma {:induction false} MemberMeaning(b: Backend, v: Value, items: seq<Outcome>)
    ensures Member(b, v, items).Ok? <==> Settled(v, items)
    ensures Settled(v, items) ==>
      Member(b, v, items) == Ok(if Hit(v, items) then Bool(true) else if Unsure(v, items) then Null else Bool(false))
  {
    if items != [] {
      MemberMeaning(b, v, items[1..]);
      ConsMembers(v, items[0], items[1..]);
      assert items == [items[0]] + items[1..];
      hide Settled, Hit, Unsure;
    }
  }

  ghost predicate Agree(v: Outcome, w: Outcome) {
    v.Ok? == w.Ok? && (v.Ok? ==> v == w)
  }

  lemma MemberOfSameSet(c: Context, v: Value, xs: seq<Ast>, ys: seq<Ast>)
    requires Elements(xs) == Elements(ys)
    ensures Agree(Member(c.backend, v, EvalAll(c, xs)), Member(c.backend, v, EvalAll(c, ys)))
  {
    var (m, n) := (EvalAll(c, xs), EvalAll(c, ys));
    MemberMeaning(c.backend, v, m);
    MemberMeaning(c.backend, v, n);
    SameMembers(c, v, xs, ys);
    SameMembers(c, v, ys, xs);
  }

  lemma Counterpart(c: Context, xs: seq<Ast>, ys: seq<Ast>, i: nat) returns (j: nat)
    requires Elements(xs) == Elements(ys) && i < |xs|
    ensures j < |ys| && EvalAll(c, ys)[j] == EvalAll(c, xs)[i]
  {
    assert xs[i] in Elements(xs);
    j :| 0 <= j < |ys| && ys[j] == xs[i];
  }

  lemma SameMembers(c: Context, v: Value, xs: seq<Ast>, ys: seq<Ast>)
    requires Elements(xs) == Elements(ys)
    ensures Settled(v, EvalAll(c, xs)) ==> Settled(v, EvalAll(c, ys))
    ensures Hit(v, EvalAll(c, xs)) ==> Hit(v, EvalAll(c, ys))
    ensures Unsure(v, EvalAll(c, xs)) ==> Unsure(v, EvalAll(c, ys))
  {
    hide Eval, Elements, Same, Comparable;
    var (m, n) := (EvalAll(c, xs), EvalAll(c, ys));
    if Settled(v, m) {
      forall j | 0 <= j < |n| ensures n[j].Ok? && Comparable(v, n[j].value) {
        var i := Counterpart(c, ys, xs, j);
      }
    }
    if Hit(v, m) {
      var i :| 0 <= i < |m| && m[i].Ok? && !v.Null? && !m[i].value.Null? && Same(v, m[i].value);
      var j := Counterpart(c, xs, ys, i);
    }
    if Unsure(v, m) {
      var i :| 0 <= i < |m| && m[i].Ok? && (v.Null? || m[i].value.Null?);
      var j := Counterpart(c, xs, ys, i);
    }
  }

  /** Expressions that compare as the same have the same value wherever they have one. */
  lemma {:induction false} SameAstAgrees(c: Context, left: Ast, right: Ast)
    requires SameAst(left, right)
    ensures Agree(Eval(c, left), Eval(c, right))
  {
    if left.In? && right.In? && SameAst(left.source, right.source) {
      SameAstAgrees(c, left.source, right.source);
      var v := Eval(c, left.source);
      if v.Ok? {
        MemberOfSameSet(c, v.value, left.values, right.values);
      }
    }
  }

  ghost predicate TrueOrFails(v: Outcome) {
    v == Ok(Bool(true)) || v.Err?
  }

  /** A proven implication holds on every row: where the domain is TRUE, the goal is not false or NULL. */
  lemma {:induction false} ImpliesSound(c: Context, domain: Ast, goal: Ast)
    requires Implies(domain, goal) && Eval(c, domain) == Ok(Bool(true))
    ensures TrueOrFails(Eval(c, goal))
    decreases domain, goal
  {
    if SameAst(domain, goal) {
      SameAstAgrees(c, domain, goal);
    } else if domain.And? {
      if Implies(domain.left, goal) { ImpliesSound(c, domain.left, goal); } else { ImpliesSound(c, domain.right, goal); }
    } else if domain.Or? {
      if Eval(c, domain.left) == Ok(Bool(true)) { ImpliesSound(c, domain.left, goal); } else { ImpliesSound(c, domain.right, goal); }
    } else {
      if Implies(domain, goal.left) { ImpliesSound(c, domain, goal.left); } else { ImpliesSound(c, domain, goal.right); }
    }
  }

  /** A covered CASE takes a branch, or one of its conditions fails. */
  lemma {:induction false} CaseCovered(c: Context, whens: seq<Branch>)
    requires whens != [] && TrueOrFails(Eval(c, AnyOf(whens)))
    ensures EvalCase(c, whens).Some?
  {
    var last := |whens| - 1;
    if |whens| == 1 {
      CaseTaken(c, whens, 0);
    } else if TrueOrFails(Eval(c, AnyOf(whens[..last]))) {
      CaseCovered(c, whens[..last]);
      CasePrefix(c, whens[..last], whens);
    } else if TrueOrFails(Eval(c, whens[last].when)) {
      CaseTaken(c, whens, last);
    } else {
      CaseMistyped(c, whens);
    }
  }

  /** A condition that is TRUE, fails, or is no truth value stops a CASE at that branch or before. */
  lemma {:induction false} CaseTaken(c: Context, whens: seq<Branch>, i: nat)
    requires i < |whens|
    requires TrueOrFails(Eval(c, whens[i].when)) || !Truth(Eval(c, whens[i].when).value)
    ensures EvalCase(c, whens).Some?
  {
    if i > 0 {
      CaseTaken(c, whens[1..], i - 1);
    }
  }

  lemma {:induction false} CasePrefix(c: Context, prefix: seq<Branch>, whens: seq<Branch>)
    requires prefix <= whens && EvalCase(c, prefix).Some?
    ensures EvalCase(c, whens).Some?
  {
    if prefix != [] && EvalCase(c, prefix[1..]).Some? {
      assert prefix[1..] <= whens[1..];
      CasePrefix(c, prefix[1..], whens[1..]);
    }
  }

  lemma {:induction false} CaseMistyped(c: Context, whens: seq<Branch>)
    requires |whens| > 1
    requires !TrueOrFails(Eval(c, AnyOf(whens[..|whens| - 1]))) && !TrueOrFails(Eval(c, whens[|whens| - 1].when))
    requires TrueOrFails(Eval(c, AnyOf(whens)))
    ensures EvalCase(c, whens).Some?
    decreases |whens|
  {
    var last := |whens| - 1;
    if !Truth(Eval(c, whens[last].when).value) {
      CaseTaken(c, whens, last);
    } else {
      assert !Truth(Eval(c, AnyOf(whens[..last])).value);
      CaseTaken(c, whens, 0);
    }
  }

  lemma CompareIsTruth(b: Backend, v: Value, w: Value)
    ensures CompareValues(b, Eq, v, w).Ok? ==> Truth(CompareValues(b, Eq, v, w).value)
  {
  }

  /** A covered mapping finds an entry, or a comparison fails. */
  lemma {:induction false} MappingCovered(c: Context, v: Value, entries: seq<Branch>)
    requires TrueOrFails(Member(c.backend, v, EvalAll(c, Keys(entries))))
    ensures EvalMapping(c, v, entries).Some?
  {
    hide CompareValues;
    if entries != [] {
      var keys := EvalAll(c, Keys(entries));
      assert Keys(entries)[1..] == Keys(entries[1..]);
      assert keys[1..] == EvalAll(c, Keys(entries[1..]));
      if keys[0].Ok? && CompareValues(c.backend, Eq, v, keys[0].value) != Ok(Bool(true)) {
        CompareIsTruth(c.backend, v, keys[0].value);
        if TrueOrFails(Member(c.backend, v, keys[1..])) {
          MappingCovered(c, v, entries[1..]);
        }
      }
    }
  }

  /** The row reaches the end of a CASE or mapping that has no ELSE. */
  predicate FallsThrough(c: Context, e: Ast) {
    match e
    case Case(whens, None) => EvalCase(c, whens).None?
    case Mapping(source, entries, None) =>
      Eval(c, source).Ok? && EvalMapping(c, Eval(c, source).value, entries).None?
    case _ => false
  }

  lemma CoverageHolds(c: Context, e: Ast)
    requires PartialCoverage(e).Some? && TrueOrFails(Eval(c, PartialCoverage(e).value))
    ensures !FallsThrough(c, e)
  {
    if e.Case? {
      CaseCovered(c, e.whens);
    } else if Eval(c, e.source).Ok? {
      MappingCovered(c, Eval(c, e.source).value, e.entries);
    }
  }
}
