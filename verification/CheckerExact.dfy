/** How much the checker accepts: an operator is typed as its values demand, and no assignment is refused needlessly. */
module CheckerExact {
  import opened Options
  import opened Expressions
  import opened Checker
  import opened CheckerSoundness

  // ---------- sample values ----------

  /** Two values of a family that differ; of the NULL family there is only NULL. */
  function Sample(f: Family, second: bool): Value {
    match f
    case IntegerFamily => Int(if second then 2 else 1)
    case NumericFamily => Num(if second then 2.0 else 1.0)
    case TextFamily => Text(if second then "b" else "a")
    case BooleanFamily => Bool(second)
    case DateFamily => Date(if second then 2 else 1)
    case DatetimeFamily => Datetime(if second then 2 else 1)
    case TimeFamily => Time(if second then 2 else 1)
    case JsonFamily => Json(if second then "b" else "a")
    case BinaryFamily => Binary(if second then [2] else [1])
    case NullFamily => Null
  }

  /** Some value has this family and nullability. */
  predicate Sane(i: Info) {
    i.family == NullFamily ==> i.nullable
  }

  /** Every value of `g` is one of `f`. */
  ghost predicate Covers(f: Family, g: Family) {
    forall v :: Fits(v, g) ==> Fits(v, f)
  }

  lemma CoversIff(f: Family, g: Family)
    ensures Covers(f, g) <==> f == g || g == NullFamily || (f == NumericFamily && g == IntegerFamily)
    ensures Covers(f, g) <==> Fits(Sample(g, false), f)
  {
    if Covers(f, g) {
      assert Fits(Sample(g, false), g);
    }
  }

  // ---------- families ----------

  /** The common family is the least that holds every value of the others, and is refused only where there is none. */
  lemma MergeIsLeast(families: set<Family>)
    ensures MergeFamilies(families).Some? <==> exists f :: CoversAll(f, families)
    ensures MergeFamilies(families).Some? ==>
      CoversAll(MergeFamilies(families).value, families) && forall f :: CoversAll(f, families) ==> Covers(f, MergeFamilies(families).value)
  {
    var values := families - {NullFamily};
    forall f, g ensures Covers(f, g) <==> f == g || g == NullFamily || (f == NumericFamily && g == IntegerFamily) {
      CoversIff(f, g);
    }
    if f :| CoversAll(f, families) {
      if values != {} {
        var g :| g in values;
        assert Covers(f, g);
        assert !(values <= {IntegerFamily, NumericFamily}) ==> values == {f};
      }
    }
    if MergeFamilies(families).Some? {
      var f := MergeFamilies(families).value;
      forall g | g in families ensures Covers(f, g) {
        assert g == NullFamily || g in values;
      }
      assert CoversAll(f, families);
    }
  }

  ghost predicate CoversAll(f: Family, families: set<Family>) {
    forall g :: g in families ==> Covers(f, g)
  }

  // ---------- every type has a value ----------

  lemma MergedSane(infos: seq<Info>, nullable: bool)
    requires AllSane(infos) && infos != [] && (AllNullable(infos) ==> nullable)
    ensures Merged(Families(infos), nullable).Some? ==> Sane(Merged(Families(infos), nullable).value)
  {
    var values := Families(infos) - {NullFamily};
    if values == {} {
      forall k | 0 <= k < |infos| ensures infos[k].nullable {
        assert infos[k].family !in values;
      }
    } else {
      var g :| g in values;
    }
  }

  /** With columns of declared types, no expression is given a type that no value has. */
  lemma {:induction false} InferSane(t: Types, table: Table, e: Ast)
    requires (forall key :: key in t.columns ==> t.columns[key].family != NullFamily) && WellFormed(e, table, t.parameters)
    ensures Infer(t, e).Some? ==> Sane(Infer(t, e).value)
    decreases e, 1
  {
    hide MergeFamilies, Merged, IsComplete;
    match e
    case Not(a) => InferSane(t, table, a);
    case Neg(a) => InferSane(t, table, a);
    case Cast(a, target) =>
    case Arith(_, l, r) =>
      if Infer(t, l).Some? && Infer(t, r).Some? {
        NumericSane(Infer(t, l).value, Infer(t, r).value);
      }
    case Function(name, args) =>
      InferAllSane(t, table, args);
      if InferAll(t, args).Some? && name == Coalesce {
        MergedSane(InferAll(t, args).value, AllNullable(InferAll(t, args).value));
      }
    case Case(whens, otherwise) =>
      BranchesSane(t, table, whens);
      if otherwise.Some? {
        InferSane(t, table, otherwise.value);
      }
      if InferBranches(t, whens).Some? && InferOption(t, otherwise).Some? {
        ResultsSane(InferBranches(t, whens).value, InferOption(t, otherwise).value, !IsComplete(t.domain, e));
      }
    case Mapping(source, entries, otherwise) =>
      BranchesSane(t, table, entries);
      if otherwise.Some? {
        InferSane(t, table, otherwise.value);
      }
      if InferBranches(t, entries).Some? && InferOption(t, otherwise).Some? {
        ResultsSane(InferBranches(t, entries).value, InferOption(t, otherwise).value, !IsComplete(t.domain, e));
      }
    case _ =>
  }

  lemma NumericSane(i: Info, j: Info)
    ensures NumericInfo(i) && NumericInfo(j) && Merged({i.family, j.family}, i.nullable || j.nullable).Some? ==>
      Sane(Merged({i.family, j.family}, i.nullable || j.nullable).value)
  {
    assert i.family != NullFamily ==> i.family in {i.family, j.family} - {NullFamily};
  }

  lemma ResultsSane(branches: seq<(Info, Info)>, last: seq<Info>, open: bool)
    requires branches != [] && AllSane(Results(branches)) && AllSane(last)
    ensures
      var results := Results(branches) + last;
      var nullable := open || AnyNullable(results);
      Merged(Families(results), nullable).Some? ==> Sane(Merged(Families(results), nullable).value)
  {
    var results := Results(branches) + last;
    assert results[0].nullable ==> AnyNullable(results);
    MergedSane(results, open || AnyNullable(results));
  }

  lemma {:induction false} InferAllSane(t: Types, table: Table, es: seq<Ast>)
    requires (forall key :: key in t.columns ==> t.columns[key].family != NullFamily) && AllWellFormed(es, table, t.parameters)
    ensures InferAll(t, es).Some? ==> AllSane(InferAll(t, es).value)
    decreases es, 0
  {
    if es != [] {
      InferSane(t, table, es[0]);
      InferAllSane(t, table, es[1..]);
    }
  }

  lemma {:induction false} BranchesSane(t: Types, table: Table, branches: seq<Branch>)
    requires (forall key :: key in t.columns ==> t.columns[key].family != NullFamily)
    requires BranchesWellFormed(branches, table, t.parameters)
    ensures InferBranches(t, branches).Some? ==> AllSane(Results(InferBranches(t, branches).value))
    decreases branches, 0
  {
    if branches != [] {
      var first := branches[0];
      assert first.when < first && first.then_ < first;
      InferSane(t, table, first.then_);
      BranchesSane(t, table, branches[1..]);
    }
  }

  // ---------- assignments ----------

  /**
   * An assignment is accepted exactly when the expression can be typed, and every value of its type is one that the
   * target takes.
   */
  lemma AssignmentExact(t: Types, table: Table, e: Ast, target: Family, nullable: bool)
    requires (forall key :: key in t.columns ==> t.columns[key].family != NullFamily) && WellFormed(e, table, t.parameters)
    ensures ValidAssignment(t, e, target, nullable) <==>
      && Infer(t, e).Some?
      && forall v :: Matches(v, Infer(t, e).value) ==> Fits(v, target) && (v.Null? ==> nullable)
  {
    hide WellFormed, Infer, Matches, Fits, Compatible;
    InferSane(t, table, e);
    if Infer(t, e).Some? {
      TakesExactly(Infer(t, e).value, target, nullable);
    }
  }

  lemma TakesExactly(info: Info, target: Family, nullable: bool)
    requires Sane(info)
    ensures
      && (if info.family == NullFamily then nullable else Compatible(info.family, target))
      && (info.nullable ==> nullable)
      <==> forall v :: Matches(v, info) ==> Fits(v, target) && (v.Null? ==> nullable)
  {
    CoversIff(target, info.family);
    assert info.family != NullFamily ==> Matches(Sample(info.family, false), info);
    assert info.nullable ==> Matches(Null, info);
  }

  // ---------- operators ----------

  predicate Operator(e: Ast) {
    !e.Column? && !e.Literal? && !e.Parameter? && !e.Case? && !e.Mapping?
  }

  function Operands(e: Ast): seq<Ast> {
    match e
    case Arith(_, l, r) => [l, r]
    case Compare(_, l, r) => [l, r]
    case And(l, r) => [l, r]
    case Or(l, r) => [l, r]
    case Is(_, l, r) => [l, r]
    case Not(a) => [a]
    case Neg(a) => [a]
    case Cast(a, _) => [a]
    case In(source, values) => [source] + values
    case Function(_, args) => args
    case _ => []
  }

  function Literals(values: seq<Value>): (es: seq<Ast>)
    ensures |es| == |values| && forall k :: 0 <= k < |es| ==> es[k] == Literal(values[k])
  {
    seq(|values|, k requires 0 <= k < |values| => Literal(values[k]))
  }

  /** The operator over these values in place of its operands. */
  function With(e: Ast, values: seq<Value>): Ast
    requires Operator(e) && |values| == |Operands(e)|
  {
    match e
    case Arith(op, _, _) => Arith(op, Literal(values[0]), Literal(values[1]))
    case Compare(op, _, _) => Compare(op, Literal(values[0]), Literal(values[1]))
    case And(_, _) => And(Literal(values[0]), Literal(values[1]))
    case Or(_, _) => Or(Literal(values[0]), Literal(values[1]))
    case Is(negated, _, _) => Is(negated, Literal(values[0]), Literal(values[1]))
    case Not(_) => Not(Literal(values[0]))
    case Neg(_) => Neg(Literal(values[0]))
    case Cast(_, target) => Cast(Literal(values[0]), target)
    case In(_, _) => In(Literal(values[0]), Literals(values[1..]))
    case Function(name, _) => Function(name, Literals(values))
  }

  /** What the operator makes of the values. */
  function Run(b: Backend, e: Ast, values: seq<Value>): Outcome
    requires Operator(e) && |values| == |Operands(e)|
  {
    Eval(Context(b, map[], map[]), With(e, values))
  }

  /** Values of the operands' types. */
  ghost predicate Matching(values: seq<Value>, infos: seq<Info>) {
    |values| == |infos| && forall k :: 0 <= k < |infos| ==> Matches(values[k], infos[k])
  }

  ghost predicate Typed(t: Types, e: Ast, infos: seq<Info>) {
    && Operator(e) && |infos| == |Operands(e)|
    && forall k :: 0 <= k < |infos| ==> Infer(t, Operands(e)[k]) == Some(infos[k]) && Sane(infos[k])
  }

  /** The language's argument counts; a list to look in; and the arguments that must be spelled out are not NULL. */
  predicate Shaped(e: Ast, infos: seq<Info>) {
    match e
    case In(_, _) => |infos| >= 2
    case Function(name, _) =>
      (match name
       case Lower | Upper | Trim => |infos| == 1
       case Concat | Coalesce => |infos| >= 2
       case JsonExtract => |infos| == 2 && !infos[1].nullable
       case SplitPart => |infos| == 3 && !infos[1].nullable && !infos[2].nullable
       case DateTrunc => |infos| == 3 && infos[0] == infos[2] == Info(TextFamily, false))
    case _ => true
  }

  /** The inferred type of an operator depends on the types of its operands alone. */
  lemma InferAllIs(t: Types, es: seq<Ast>, infos: seq<Info>)
    requires |infos| == |es| && forall k :: 0 <= k < |infos| ==> Infer(t, es[k]) == Some(infos[k])
    ensures InferAll(t, es) == Some(infos)
  {
    if es != [] {
      InferAllIs(t, es[1..], infos[1..]);
      assert infos == [infos[0]] + infos[1..];
    }
  }

  function InferOf(e: Ast, infos: seq<Info>): Option<Info>
    requires Operator(e) && |infos| == |Operands(e)|
  {
    match e
    case Arith(_, _, _) =>
      if NumericInfo(infos[0]) && NumericInfo(infos[1]) then Merged({infos[0].family, infos[1].family}, AnyNullable(infos)) else None
    case Compare(_, _, _) =>
      if MergeFamilies({infos[0].family, infos[1].family}).Some? then Some(Info(BooleanFamily, AnyNullable(infos))) else None
    case And(_, _) => InferLogic(Some(infos[0]), Some(infos[1]))
    case Or(_, _) => InferLogic(Some(infos[0]), Some(infos[1]))
    case Is(_, _, _) => Some(Info(BooleanFamily, false))
    case Not(_) => if infos[0].family == BooleanFamily then Some(infos[0]) else None
    case Neg(_) => if NumericInfo(infos[0]) then Some(infos[0]) else None
    case Cast(_, target) => Some(Info(target, infos[0].nullable))
    case In(_, _) =>
      if MergeFamilies(Families(infos)).Some? then Some(Info(BooleanFamily, AnyNullable(infos))) else None
    case Function(name, _) => InferFunction(name, infos)
  }

  lemma InferIs(t: Types, e: Ast, infos: seq<Info>)
    requires Typed(t, e, infos)
    ensures Infer(t, e) == InferOf(e, infos)
  {
    hide MergeFamilies, InferFunction, Families, AnyNullable, Sane, NumericInfo, InferAll, IsComplete;
    if |infos| == 2 {
      AnyOfTwo(infos);
    }
    match e
    case Function(_, args) => InferAllIs(t, args, infos);
    case In(source, values) => InferInIs(t, source, values, infos);
    case Arith(_, _, _) =>
    case Compare(_, _, _) =>
    case And(_, _) =>
    case Or(_, _) =>
    case Is(_, l, r) => assert Operands(e)[0] == l && Operands(e)[1] == r;
    case Not(_) =>
    case Neg(_) =>
    case Cast(_, _) =>
  }

  lemma AnyOfTwo(infos: seq<Info>)
    requires |infos| == 2
    ensures AnyNullable(infos) <==> infos[0].nullable || infos[1].nullable
  {
  }

  lemma FamiliesCons(infos: seq<Info>)
    requires infos != []
    ensures {infos[0].family} + Families(infos[1..]) == Families(infos)
  {
    assert infos == [infos[0]] + infos[1..];
  }

  lemma InferInIs(t: Types, source: Ast, values: seq<Ast>, infos: seq<Info>)
    requires |infos| == |values| + 1
    requires forall k :: 0 <= k < |infos| ==> Infer(t, ([source] + values)[k]) == Some(infos[k])
    ensures InferAll(t, values) == Some(infos[1..]) && Infer(t, source) == Some(infos[0])
    ensures {infos[0].family} + Families(infos[1..]) == Families(infos)
    ensures AnyNullable(infos) <==> infos[0].nullable || AnyNullable(infos[1..])
  {
    hide Infer, InferAll, AnyNullable, Families;
    assert ([source] + values)[0] == source;
    forall k | 0 <= k < |values| ensures Infer(t, values[k]) == Some(infos[1..][k]) {
      assert ([source] + values)[k + 1] == values[k];
    }
    InferAllIs(t, values, infos[1..]);
    NullableCons(infos);
    FamiliesCons(infos);
  }

  // ---------- what the values make of it ----------

  function Oks(values: seq<Value>): (items: seq<Outcome>)
    ensures |items| == |values| && forall k :: 0 <= k < |items| ==> items[k] == Outcome.Ok(values[k])
  {
    seq(|values|, k requires 0 <= k < |values| => Outcome.Ok(values[k]))
  }

  function NotOf(v: Value): Outcome {
    match v
    case Null => Outcome.Ok(Null)
    case Bool(x) => Outcome.Ok(Bool(!x))
    case _ => Err(Mismatch)
  }

  function NegOf(v: Value): Outcome {
    match v
    case Null => Outcome.Ok(Null)
    case Int(n) => Outcome.Ok(Int(-n))
    case Num(r) => Outcome.Ok(Num(-r))
    case _ => Err(Mismatch)
  }

  /** Evaluation over literals, operator by operator. */
  function RunOf(b: Backend, e: Ast, values: seq<Value>): Outcome
    requires Operator(e) && |values| == |Operands(e)|
  {
    match e
    case Arith(op, _, _) => Calculate(op, values[0], values[1])
    case Compare(op, _, _) => CompareValues(b, op, values[0], values[1])
    case And(_, _) => Both(Outcome.Ok(values[0]), Outcome.Ok(values[1]))
    case Or(_, _) => Either(Outcome.Ok(values[0]), Outcome.Ok(values[1]))
    case Is(negated, _, _) => Outcome.Ok(Bool(Same(values[0], values[1]) != negated))
    case Not(_) => NotOf(values[0])
    case Neg(_) => NegOf(values[0])
    case Cast(_, target) => Convert(b, values[0], target)
    case In(_, _) => Member(b, values[0], Oks(values[1..]))
    case Function(name, _) => Apply(b, name, Oks(values))
  }

  lemma RunIs(b: Backend, e: Ast, values: seq<Value>)
    requires Operator(e) && |values| == |Operands(e)|
    ensures Run(b, e, values) == RunOf(b, e, values)
  {
    hide Calculate, CompareValues, Both, Either, Same, Convert, Member, Apply;
    var c := Context(b, map[], map[]);
    forall v ensures Eval(c, Literal(v)) == Outcome.Ok(v) {
    }
    match e
    case Function(_, _) => assert EvalAll(c, Literals(values)) == Oks(values);
    case In(_, _) => assert EvalAll(c, Literals(values[1..])) == Oks(values[1..]);
    case _ =>
  }

  lemma OksSound(values: seq<Value>, infos: seq<Info>)
    requires Matching(values, infos)
    ensures AllSound(Oks(values), infos)
  {
  }

  /** An accepted operator makes of matching values one of its inferred type. */
  lemma RunSound(b: Backend, e: Ast, values: seq<Value>, infos: seq<Info>)
    requires Operator(e) && |infos| == |Operands(e)| && Shaped(e, infos) && Matching(values, infos) && InferOf(e, infos).Some?
    ensures Sound(Run(b, e, values), InferOf(e, infos).value)
  {
    hide MergeFamilies, Calculate, CompareValues, Apply, Member, InferFunction, Both, Either;
    RunIs(b, e, values);
    match e
    case Arith(op, _, _) => CalculateSound(op, values[0], values[1], infos[0], infos[1]);
    case Compare(op, _, _) => CompareSound(b, op, values[0], values[1], infos[0], infos[1]);
    case And(_, _) => BothSound(Outcome.Ok(values[0]), Outcome.Ok(values[1]), infos[0], infos[1]);
    case Or(_, _) => EitherSound(Outcome.Ok(values[0]), Outcome.Ok(values[1]), infos[0], infos[1]);
    case In(_, _) =>
      OksSound(values[1..], infos[1..]);
      NullableCons(infos);
      MemberSound(b, values[0], infos[0], Oks(values[1..]), infos[1..], Families(infos));
    case Function(name, _) =>
      OksSound(values, infos);
      SpelledWith(name, infos, values);
      ApplySound(b, name, Oks(values), infos);
    case _ =>
  }

  lemma SpelledWith(name: FunctionName, infos: seq<Info>, values: seq<Value>)
    requires Matching(values, infos) && InferFunction(name, infos).Some? && Shaped(Function(name, []), infos)
    ensures SpelledOut(name, Oks(values))
  {
  }

  // ---------- values that show it ----------

  /** A database whose conversions and functions answer with samples. */
  function Answering(found: Option<string>): Backend {
    Backend((_, s) => s, (s, _, _) => s, (_, _) => found, (_, d, _) => d, (_, f) => Some(Sample(f, false)), (_, _) => false)
  }

  /** Samples of the operands' types, the first and the others told apart, and NULL at `k`. */
  function NullAt(infos: seq<Info>, k: nat, first: bool, others: bool): (values: seq<Value>)
    ensures |values| == |infos|
    ensures forall q :: 0 <= q < |infos| ==>
      values[q] == if q == k then Null else Sample(infos[q].family, if q == 0 then first else others)
  {
    seq(|infos|, q requires 0 <= q < |infos| =>
      if q == k then Null else Sample(infos[q].family, if q == 0 then first else others))
  }

  ghost predicate AllSane(infos: seq<Info>) {
    forall k :: 0 <= k < |infos| ==> Sane(infos[k])
  }

  lemma NullAtMatches(infos: seq<Info>, k: nat, first: bool, others: bool)
    requires AllSane(infos) && (k < |infos| ==> infos[k].nullable)
    ensures Matching(NullAt(infos, k, first, others), infos)
  {
  }

  /** A list with NULL in it, and nothing that equals the value, leaves the answer open. */
  lemma {:induction false} MemberUnknown(b: Backend, v: Value, items: seq<Value>, k: nat)
    requires k < |items| && (v.Null? || items[k].Null?)
    requires forall q :: 0 <= q < |items| ==> Comparable(v, items[q]) && (v.Null? || !Same(v, items[q]))
    ensures Member(b, v, Oks(items)) == Outcome.Ok(Null)
  {
    assert Oks(items)[1..] == Oks(items[1..]);
    if k > 0 {
      MemberUnknown(b, v, items[1..], k - 1);
    } else {
      MemberNotTrue(b, v, items[1..]);
    }
  }

  lemma {:induction false} MemberNotTrue(b: Backend, v: Value, items: seq<Value>)
    requires forall q :: 0 <= q < |items| ==> Comparable(v, items[q]) && (v.Null? || !Same(v, items[q]))
    ensures Member(b, v, Oks(items)) in {Outcome.Ok(Null), Outcome.Ok(Bool(false))}
    ensures !v.Null? && (forall q :: 0 <= q < |items| ==> !items[q].Null?) ==> Member(b, v, Oks(items)) == Outcome.Ok(Bool(false))
  {
    if items != [] {
      assert Oks(items)[1..] == Oks(items[1..]);
      MemberNotTrue(b, v, items[1..]);
    }
  }

  /** Families that can be merged are those of comparable values. */
  lemma MergedAlike(families: set<Family>, f: Family, g: Family)
    requires f in families && g in families && MergeFamilies(families).Some?
    ensures f == g || f == NullFamily || g == NullFamily || {f, g} == {IntegerFamily, NumericFamily}
  {
    var values := families - {NullFamily};
    assert f != NullFamily ==> f in values;
    assert g != NullFamily ==> g in values;
  }

  lemma SamplesDiffer(f: Family, g: Family)
    requires f == g || f == NullFamily || g == NullFamily || {f, g} == {IntegerFamily, NumericFamily}
    ensures
      var v, w := Sample(f, false), Sample(g, true);
      && Comparable(v, w) && (v.Null? || !Same(v, w)) && (v.Null? <==> f == NullFamily) && (w.Null? <==> g == NullFamily)
  {
    if f == IntegerFamily && g != f {
      assert g in {f, g};
    }
    if f == NumericFamily && g != f {
      assert g in {f, g};
    }
  }

  /** Where the inferred type is nullable, some values make the result NULL. */
  lemma NullWitness(e: Ast, infos: seq<Info>) returns (b: Backend, values: seq<Value>)
    requires Operator(e) && |infos| == |Operands(e)| && Shaped(e, infos) && AllSane(infos)
    requires InferOf(e, infos).Some? && InferOf(e, infos).value.nullable
    ensures Matching(values, infos) && Run(b, e, values) == Outcome.Ok(Null)
  {
    hide MergeFamilies, Member, Apply, InferFunction, Matches, Calculate, CompareValues, Run, Oks, Sample;
    b := Answering(None);
    var k: nat := |infos|;
    if AnyNullable(infos) {
      k :| 0 <= k < |infos| && infos[k].nullable;
    }
    match e {
      case Function(name, _) => values := NullFunction(b, name, infos, k);
      case In(_, _) => values := NullMember(b, infos, k);
      case _ => values := NullOperand(e, b, infos, k);
    }
    RunIs(b, e, values);
  }

  lemma NullOperand(e: Ast, b: Backend, infos: seq<Info>, k: nat) returns (values: seq<Value>)
    requires Operator(e) && |infos| == |Operands(e)| && !e.In? && !e.Function? && AllSane(infos)
    requires InferOf(e, infos).Some? && InferOf(e, infos).value.nullable && k < |infos| && infos[k].nullable
    ensures Matching(values, infos) && RunOf(b, e, values) == Outcome.Ok(Null)
  {
    hide MergeFamilies, Same;
    values := NullAt(infos, k, e.And?, e.And?);
    NullAtMatches(infos, k, e.And?, e.And?);
  }

  lemma NullMember(b: Backend, infos: seq<Info>, k: nat) returns (values: seq<Value>)
    requires |infos| >= 2 && AllSane(infos) && MergeFamilies(Families(infos)).Some? && k < |infos| && infos[k].nullable
    ensures Matching(values, infos) && Member(b, values[0], Oks(values[1..])) == Outcome.Ok(Null)
  {
    hide MergeFamilies, Member, Same, Comparable, Oks, Sample;
    values := NullAt(infos, k, false, true);
    NullAtMatches(infos, k, false, true);
    forall q | 0 <= q < |values[1..]|
      ensures Comparable(values[0], values[1..][q]) && (values[0].Null? || !Same(values[0], values[1..][q]))
    {
      MergedAlike(Families(infos), infos[0].family, infos[q + 1].family);
      SamplesDiffer(infos[0].family, infos[q + 1].family);
      NullCompares(values[0], values[1..][q]);
    }
    MemberUnknown(b, values[0], values[1..], if k == 0 then 0 else k - 1);
  }

  lemma NullCompares(v: Value, w: Value)
    ensures v.Null? || w.Null? ==> Comparable(v, w)
    ensures w.Null? && !v.Null? ==> !Same(v, w)
  {
  }

  lemma NullFunction(b: Backend, name: FunctionName, infos: seq<Info>, k: nat) returns (values: seq<Value>)
    requires Shaped(Function(name, []), infos) && AllSane(infos) && b == Answering(None)
    requires InferFunction(name, infos).Some? && InferFunction(name, infos).value.nullable
    requires AnyNullable(infos) ==> k < |infos| && infos[k].nullable
    ensures Matching(values, infos) && Apply(b, name, Oks(values)) == Outcome.Ok(Null)
  {
    match name {
      case Coalesce =>
        values := seq(|infos|, q => Null);
        AllNulls(values);
      case JsonExtract =>
        values := NullAt(infos, |infos|, false, false);
        NullAtMatches(infos, |infos|, false, false);
      case SplitPart =>
        values := NullAt(infos, 0, false, false);
        NullAtMatches(infos, 0, false, false);
      case DateTrunc =>
        values := NullAt(infos, 1, false, false);
        NullAtMatches(infos, 1, false, false);
      case _ =>
        values := NullAt(infos, k, false, false);
        NullAtMatches(infos, k, false, false);
        assert Oks(values)[k].value.Null?;
    }
  }

  lemma {:induction false} AllNulls(values: seq<Value>)
    requires forall q :: 0 <= q < |values| ==> values[q].Null?
    ensures FirstNonNull(Oks(values)) == Outcome.Ok(Null)
  {
    if values != [] {
      AllNulls(values[1..]);
      assert Oks(values)[1..] == Oks(values[1..]);
    }
  }

  ghost predicate NoneNull(infos: seq<Info>) {
    forall k :: 0 <= k < |infos| ==> infos[k].family != NullFamily
  }

  /** Samples, none of them NULL. */
  function Samples(infos: seq<Info>, first: bool, others: bool): seq<Value> {
    NullAt(infos, |infos|, first, others)
  }

  /** Some values make the result one that belongs to no lesser family than the inferred one. */
  lemma FamilyWitness(e: Ast, infos: seq<Info>) returns (b: Backend, values: seq<Value>)
    requires Operator(e) && |infos| == |Operands(e)| && Shaped(e, infos) && NoneNull(infos) && InferOf(e, infos).Some?
    requires e.Function? ==> e.function_ != Coalesce
    ensures Matching(values, infos) && Run(b, e, values).Ok?
    ensures forall f :: Fits(Run(b, e, values).value, f) ==> Covers(f, InferOf(e, infos).value.family)
  {
    hide Member, Covers, Matching, Apply, InferFunction, Calculate, CompareValues, Run, Oks, Sample, MergeFamilies, Both, Either, Same,
      Convert, Number;
    b := Answering(Some("a"));
    values := Samples(infos, false, true);
    RunIs(b, e, values);
    NullAtMatches(infos, |infos|, false, true);
    match e {
      case In(_, _) => FamilyMember(b, infos);
      case Function(name, _) => FamilyFunction(b, name, infos);
      case _ => FamilyOperand(e, b, infos);
    }
  }

  lemma FamilyOperand(e: Ast, b: Backend, infos: seq<Info>)
    requires Operator(e) && |infos| == |Operands(e)| && !e.In? && !e.Function? && NoneNull(infos) && InferOf(e, infos).Some?
    requires b == Answering(Some("a"))
    ensures RunOf(b, e, Samples(infos, false, true)).Ok?
    ensures forall f :: Fits(RunOf(b, e, Samples(infos, false, true)).value, f) ==> Covers(f, InferOf(e, infos).value.family)
  {
    hide Covers, Same;
    forall f ensures Covers(f, InferOf(e, infos).value.family) <==>
      || f == InferOf(e, infos).value.family || InferOf(e, infos).value.family == NullFamily
      || (f == NumericFamily && InferOf(e, infos).value.family == IntegerFamily)
    {
      CoversIff(f, InferOf(e, infos).value.family);
    }
    if e.Compare? {
      hide MergeFamilies;
      MergedAlike({infos[0].family, infos[1].family}, infos[0].family, infos[1].family);
      SamplesDiffer(infos[0].family, infos[1].family);
    }
  }

  lemma FamilyMember(b: Backend, infos: seq<Info>)
    requires |infos| >= 2 && NoneNull(infos) && MergeFamilies(Families(infos)).Some?
    ensures
      var values := Samples(infos, false, true);
      Member(b, values[0], Oks(values[1..])) == Outcome.Ok(Bool(false))
    ensures forall f :: Fits(Bool(false), f) ==> Covers(f, BooleanFamily)
  {
    hide MergeFamilies, Member, Same, Comparable, Oks, Sample;
    var values := Samples(infos, false, true);
    forall q | 0 <= q < |values[1..]|
      ensures Comparable(values[0], values[1..][q]) && !Same(values[0], values[1..][q]) && !values[1..][q].Null? && !values[0].Null?
    {
      MergedAlike(Families(infos), infos[0].family, infos[q + 1].family);
      SamplesDiffer(infos[0].family, infos[q + 1].family);
    }
    assert !values[1..][0].Null? && !values[0].Null?;
    MemberNotTrue(b, values[0], values[1..]);
  }

  lemma FamilyFunction(b: Backend, name: FunctionName, infos: seq<Info>)
    requires Shaped(Function(name, []), infos) && NoneNull(infos) && InferFunction(name, infos).Some? && name != Coalesce
    requires b == Answering(Some("a"))
    ensures Apply(b, name, Oks(Samples(infos, false, true))).Ok?
    ensures
      forall f :: Fits(Apply(b, name, Oks(Samples(infos, false, true))).value, f) ==> Covers(f, InferFunction(name, infos).value.family)
  {
    hide Covers;
    forall f ensures Covers(f, InferFunction(name, infos).value.family) <==> f == InferFunction(name, infos).value.family {
      CoversIff(f, InferFunction(name, infos).value.family);
    }
    if name == Concat {
      assert forall q :: 0 <= q < |infos| ==> Oks(Samples(infos, false, true))[q].value.Text?;
    }
  }

  /** Families without a common one are those of values that cannot be compared. */
  lemma Apart(families: set<Family>, f: Family) returns (g: Family)
    requires f in families && NullFamily !in families && MergeFamilies(families).None?
    ensures g in families && !Comparable(Sample(f, false), Sample(g, true))
  {
    assert families - {NullFamily} == families;
    if f == IntegerFamily || f == NumericFamily {
      g :| g in families && g !in {IntegerFamily, NumericFamily};
    } else {
      assert families != {f};
      g :| g in families && g != f;
    }
  }

  lemma {:induction false} MemberClashes(b: Backend, v: Value, items: seq<Value>, k: nat)
    requires k < |items| && !Comparable(v, items[k])
    ensures Member(b, v, Oks(items)) == Err(Mismatch)
  {
    assert Oks(items)[1..] == Oks(items[1..]);
    if k > 0 {
      MemberClashes(b, v, items[1..], k - 1);
    } else if items[1..] != [] {
      OnlyMismatch(b, v, items[1..]);
    }
  }

  lemma {:induction false} OnlyMismatch(b: Backend, v: Value, items: seq<Value>)
    ensures Member(b, v, Oks(items)).Err? ==> Member(b, v, Oks(items)) == Err(Mismatch)
    ensures Member(b, v, Oks(items)).Ok? ==> Truth(Member(b, v, Oks(items)).value)
  {
    if items != [] {
      assert Oks(items)[1..] == Oks(items[1..]);
      OnlyMismatch(b, v, items[1..]);
    }
  }

  /** What is refused goes wrong on some values. */
  lemma MismatchWitness(e: Ast, infos: seq<Info>) returns (b: Backend, values: seq<Value>)
    requires Operator(e) && |infos| == |Operands(e)| && Shaped(e, infos) && NoneNull(infos) && InferOf(e, infos).None?
    requires e.Function? ==> e.function_ != Coalesce
    ensures Matching(values, infos) && Run(b, e, values) == Err(Mismatch)
  {
    hide Member, MergeFamilies, Matching, Apply, InferFunction, Calculate, CompareValues, Run, Oks, Sample, Both, Either;
    b := Answering(None);
    values := Samples(infos, false, true);
    RunIs(b, e, values);
    NullAtMatches(infos, |infos|, false, true);
    match e {
      case In(_, _) => MismatchMember(b, infos);
      case Function(name, _) => MismatchFunction(b, name, infos);
      case _ => MismatchOperand(e, b, infos);
    }
  }

  lemma MismatchOperand(e: Ast, b: Backend, infos: seq<Info>)
    requires Operator(e) && |infos| == |Operands(e)| && !e.In? && !e.Function? && NoneNull(infos) && InferOf(e, infos).None?
    ensures RunOf(b, e, Samples(infos, false, true)) == Err(Mismatch)
  {
    hide MergeFamilies, Same;
    match e {
      case Arith(_, _, _) => BothNumeric(infos[0], infos[1]);
      case Compare(_, _, _) =>
        var g := Apart({infos[0].family, infos[1].family}, infos[0].family);
        assert g == infos[1].family by {
          SamplesDiffer(infos[0].family, infos[0].family);
        }
      case _ =>
    }
  }

  lemma MismatchMember(b: Backend, infos: seq<Info>)
    requires |infos| >= 2 && NoneNull(infos) && MergeFamilies(Families(infos)).None?
    ensures
      var values := Samples(infos, false, true);
      Member(b, values[0], Oks(values[1..])) == Err(Mismatch)
  {
    hide MergeFamilies, Member, Same, Comparable, Oks, Sample;
    var values := Samples(infos, false, true);
    var g := Apart(Families(infos), infos[0].family);
    var k :| 0 <= k < |infos| && infos[k].family == g;
    assert k > 0 by {
      SamplesDiffer(infos[0].family, infos[0].family);
    }
    MemberClashes(b, values[0], values[1..], k - 1);
  }

  lemma MismatchFunction(b: Backend, name: FunctionName, infos: seq<Info>)
    requires Shaped(Function(name, []), infos) && NoneNull(infos) && InferFunction(name, infos).None? && name != Coalesce
    ensures Apply(b, name, Oks(Samples(infos, false, true))) == Err(Mismatch)
  {
    var values := Samples(infos, false, true);
    if name == Concat {
      var k :| 0 <= k < |infos| && infos[k].family != TextFamily;
      assert !Oks(values)[k].value.Text? && !Oks(values)[k].value.Null?;
    }
  }

  lemma BothNumeric(i: Info, j: Info)
    ensures NumericInfo(i) && NumericInfo(j) ==> MergeFamilies({i.family, j.family}).Some?
  {
    assert NumericInfo(i) && NumericInfo(j) ==> {i.family, j.family} - {NullFamily} == {i.family, j.family};
  }

  // ---------- the theorem ----------

  /** The result may be NULL exactly where the type says so. */
  ghost predicate NullsExactly(e: Ast, infos: seq<Info>, info: Info)
    requires Operator(e) && |infos| == |Operands(e)|
  {
    info.nullable <==> exists b, values :: Matching(values, infos) && Run(b, e, values) == Outcome.Ok(Null)
  }

  /** The family is the least that holds every result. */
  ghost predicate FamilyExactly(e: Ast, infos: seq<Info>, info: Info)
    requires Operator(e) && |infos| == |Operands(e)|
  {
    forall f :: Covers(f, info.family) <==>
      forall b, values :: Matching(values, infos) && Run(b, e, values).Ok? ==> Fits(Run(b, e, values).value, f)
  }

  /** No values of the operands' types clash. */
  ghost predicate NeverClashes(e: Ast, infos: seq<Info>)
    requires Operator(e) && |infos| == |Operands(e)|
  {
    forall b, values :: Matching(values, infos) ==> Run(b, e, values) != Err(Mismatch)
  }

  /**
   * The checker types an operator exactly as its values demand. Nullability is exact for all of them. Where no operand
   * is the literal NULL, one is refused exactly when values of its operands' types clash, and its family is the least
   * that holds the results; COALESCE takes the least family that holds its arguments, and is refused if there is none.
   */
  lemma OperatorExact(t: Types, e: Ast, infos: seq<Info>)
    requires Typed(t, e, infos) && Shaped(e, infos)
    ensures Infer(t, e).Some? ==> NullsExactly(e, infos, Infer(t, e).value)
    ensures NoneNull(infos) && (e.Function? ==> e.function_ != Coalesce) ==>
      && (Infer(t, e).Some? <==> NeverClashes(e, infos))
      && (Infer(t, e).Some? ==> FamilyExactly(e, infos, Infer(t, e).value))
    ensures e.Function? && e.function_ == Coalesce ==>
      && (Infer(t, e).Some? <==> exists f :: CoversAll(f, Families(infos)))
      && (Infer(t, e).Some? ==>
            CoversAll(Infer(t, e).value.family, Families(infos)) &&
            forall f :: CoversAll(f, Families(infos)) ==> Covers(f, Infer(t, e).value.family))
  {
    hide MergeFamilies, InferFunction, Shaped, Covers, CoversAll;
    InferIs(t, e, infos);
    if Infer(t, e).Some? {
      NullableExact(e, infos);
    }
    if e.Function? && e.function_ == Coalesce {
      CoalesceMerges(infos);
      MergeIsLeast(Families(infos));
    } else if NoneNull(infos) {
      if Infer(t, e).Some? {
        LeastFamily(e, infos);
      } else {
        var b, values := MismatchWitness(e, infos);
      }
    }
  }

  lemma CoalesceMerges(infos: seq<Info>)
    ensures InferFunction(Coalesce, infos) == Merged(Families(infos), AllNullable(infos))
  {
  }

  lemma NullableExact(e: Ast, infos: seq<Info>)
    requires Operator(e) && |infos| == |Operands(e)| && Shaped(e, infos) && AllSane(infos) && InferOf(e, infos).Some?
    ensures NullsExactly(e, infos, InferOf(e, infos).value)
  {
    hide InferOf, Run, Shaped, Matches;
    if InferOf(e, infos).value.nullable {
      var b, values := NullWitness(e, infos);
    }
    forall b, values | Matching(values, infos) && Run(b, e, values) == Outcome.Ok(Null) ensures InferOf(e, infos).value.nullable {
      RunSound(b, e, values, infos);
      NullMatches(InferOf(e, infos).value);
    }
  }

  lemma NullMatches(i: Info)
    ensures Matches(Null, i) ==> i.nullable
  {
  }

  lemma LeastFamily(e: Ast, infos: seq<Info>)
    requires Operator(e) && |infos| == |Operands(e)| && Shaped(e, infos) && NoneNull(infos) && InferOf(e, infos).Some?
    requires e.Function? ==> e.function_ != Coalesce
    ensures NeverClashes(e, infos) && FamilyExactly(e, infos, InferOf(e, infos).value)
  {
    hide InferOf, Run, Shaped, Fits;
    var info := InferOf(e, infos).value;
    forall b, values | Matching(values, infos) ensures Sound(Run(b, e, values), info) {
      RunSound(b, e, values, infos);
    }
    var b, values := FamilyWitness(e, infos);
  }

  // ---------- CASE and mappings ----------

  /** A CASE over values: the result of the first condition that is TRUE. */
  function CaseOf(branches: seq<(Value, Value)>, last: Option<Value>): Outcome {
    if branches == [] then Outcome.Ok(if last.Some? then last.value else Null)
    else if !Truth(branches[0].0) then Err(Mismatch)
    else if branches[0].0 == Bool(true) then Outcome.Ok(branches[0].1)
    else CaseOf(branches[1..], last)
  }

  /** A mapping over values: the result of the first key that equals the source. */
  function MappingOf(b: Backend, v: Value, branches: seq<(Value, Value)>, last: Option<Value>): Outcome {
    if branches == [] then Outcome.Ok(if last.Some? then last.value else Null)
    else
      var equal := CompareValues(b, Eq, v, branches[0].0);
      if equal.Err? then equal
      else if equal.value == Bool(true) then Outcome.Ok(branches[0].1)
      else MappingOf(b, v, branches[1..], last)
  }

  function LiteralBranches(branches: seq<(Value, Value)>): (r: seq<Branch>)
    ensures |r| == |branches|
  {
    if branches == [] then []
    else [Branch(Literal(branches[0].0), Literal(branches[0].1))] + LiteralBranches(branches[1..])
  }

  function LiteralLast(last: Option<Value>): Option<Ast> {
    if last.Some? then Some(Literal(last.value)) else None
  }

  /** A CASE, or a mapping, over these values in place of its parts. */
  function RunCase(b: Backend, branches: seq<(Value, Value)>, last: Option<Value>): Outcome {
    Eval(Context(b, map[], map[]), Case(LiteralBranches(branches), LiteralLast(last)))
  }

  function RunMapping(b: Backend, v: Value, branches: seq<(Value, Value)>, last: Option<Value>): Outcome {
    Eval(Context(b, map[], map[]), Mapping(Literal(v), LiteralBranches(branches), LiteralLast(last)))
  }

  lemma {:induction false} CaseIs(c: Context, branches: seq<(Value, Value)>, last: Option<Value>)
    ensures Eval(c, Case(LiteralBranches(branches), LiteralLast(last))) == CaseOf(branches, last)
  {
    var whens := LiteralBranches(branches);
    if branches != [] {
      CaseIs(c, branches[1..], last);
      assert whens[1..] == LiteralBranches(branches[1..]);
      assert Eval(c, whens[0].when) == Outcome.Ok(branches[0].0) && Eval(c, whens[0].then_) == Outcome.Ok(branches[0].1);
    }
  }

  lemma {:induction false} MappingIs(c: Context, v: Value, branches: seq<(Value, Value)>, last: Option<Value>)
    ensures Eval(c, Mapping(Literal(v), LiteralBranches(branches), LiteralLast(last))) == MappingOf(c.backend, v, branches, last)
  {
    var entries := LiteralBranches(branches);
    assert Eval(c, Literal(v)) == Outcome.Ok(v);
    if branches != [] {
      MappingIs(c, v, branches[1..], last);
      assert entries[1..] == LiteralBranches(branches[1..]);
      assert Eval(c, entries[0].when) == Outcome.Ok(branches[0].0) && Eval(c, entries[0].then_) == Outcome.Ok(branches[0].1);
    }
  }

  ghost predicate BranchesMatch(branches: seq<(Value, Value)>, infos: seq<(Info, Info)>) {
    |branches| == |infos| && forall k :: 0 <= k < |infos| ==> Matches(branches[k].0, infos[k].0) && Matches(branches[k].1, infos[k].1)
  }

  ghost predicate LastMatches(last: Option<Value>, infos: seq<Info>) {
    if last.Some? then |infos| == 1 && Matches(last.value, infos[0]) else infos == []
  }

  /** The types of the conditions and results of each branch, and of the ELSE. */
  ghost predicate BranchesTyped(t: Types, branches: seq<Branch>, otherwise: Option<Ast>, infos: seq<(Info, Info)>, last: seq<Info>) {
    && InferBranches(t, branches) == Some(infos) && InferOption(t, otherwise) == Some(last) && infos != []
    && AllSane(Conditions(infos)) && AllSane(Results(infos)) && AllSane(last)
  }

  /** Values in which branch `k` is the first to be taken, and its result is NULL. */
  function TakenAt(infos: seq<(Info, Info)>, k: nat): (branches: seq<(Value, Value)>)
    ensures |branches| == |infos|
    ensures forall q :: 0 <= q < |infos| ==> branches[q] == (Bool(q == k), if q == k then Null else Sample(infos[q].1.family, false))
  {
    seq(|infos|, q requires 0 <= q < |infos| => (Bool(q == k), if q == k then Null else Sample(infos[q].1.family, false)))
  }

  lemma {:induction false} CaseTakes(branches: seq<(Value, Value)>, last: Option<Value>, k: nat)
    requires forall q :: 0 <= q < |branches| ==> branches[q].0 == Bool(q == k)
    ensures CaseOf(branches, last) ==
      if k < |branches| then Outcome.Ok(branches[k].1) else Outcome.Ok(if last.Some? then last.value else Null)
  {
    if branches != [] {
      if k > 0 {
        assert forall q :: 0 <= q < |branches[1..]| ==> branches[1..][q].0 == Bool(q == k - 1);
        CaseTakes(branches[1..], last, k - 1);
      }
    }
  }

  /** What a CASE over matching values can be: the result of a branch, of the ELSE, or NULL where none is taken. */
  lemma {:induction false} CaseResults(branches: seq<(Value, Value)>, infos: seq<(Info, Info)>, last: Option<Value>)
    requires BranchesMatch(branches, infos) && forall k :: 0 <= k < |infos| ==> infos[k].0.family == BooleanFamily
    ensures CaseOf(branches, last).Ok?
    ensures
      || (exists k :: 0 <= k < |branches| && branches[k].0 == Bool(true) && CaseOf(branches, last).value == branches[k].1)
      || ((forall k :: 0 <= k < |branches| ==> branches[k].0 != Bool(true))
          && CaseOf(branches, last).value == if last.Some? then last.value else Null)
  {
    if branches != [] {
      assert Matches(branches[0].0, infos[0].0);
      CaseResults(branches[1..], infos[1..], last);
      assert forall k :: 0 < k < |branches| ==> branches[k] == branches[1..][k - 1];
      if k :| 0 <= k < |branches[1..]| && branches[1..][k].0 == Bool(true) && CaseOf(branches[1..], last).value == branches[1..][k].1 {
        assert branches[k + 1].0 == Bool(true);
      }
    }
  }

  /** A branch is taken, where the checker relies on one being taken. */
  ghost predicate Takes(complete: bool, branches: seq<(Value, Value)>, last: Option<Value>) {
    complete ==> last.Some? || exists k :: 0 <= k < |branches| && branches[k].0 == Bool(true)
  }

  /**
   * A CASE is nullable exactly where values of its branches' types make it NULL, of those that take a branch if the
   * domain was proven to cover it; its family is the least that holds every result.
   */
  lemma CaseExact(t: Types, e: Ast, infos: seq<(Info, Info)>, last: seq<Info>)
    requires e.Case? && BranchesTyped(t, e.whens, e.otherwise, infos, last)
    ensures
      var results := Families(Results(infos) + last);
      Infer(t, e).Some? <==> (forall k :: 0 <= k < |infos| ==> infos[k].0.family == BooleanFamily) && exists f :: CoversAll(f, results)
    ensures Infer(t, e).Some? ==>
      var info, results, complete := Infer(t, e).value, Families(Results(infos) + last), IsComplete(t.domain, e);
      && CoversAll(info.family, results) && (forall f :: CoversAll(f, results) ==> Covers(f, info.family))
      && (info.nullable <==>
            exists b, branches, w ::
              BranchesMatch(branches, infos) && LastMatches(w, last) && Takes(complete, branches, w) && RunCase(b, branches, w) == Outcome.Ok(Null))
  {
    hide MergeFamilies, IsComplete, Covers, CoversAll, RunCase, CaseOf;
    var results := Results(infos) + last;
    MergeIsLeast(Families(results));
    if Infer(t, e).Some? {
      LastIs(t, e, last);
      CaseNullable(infos, last, IsComplete(t.domain, e));
      forall b, branches, w ensures RunCase(b, branches, w) == CaseOf(branches, w) {
        RunCaseIs(b, branches, w);
      }
      var b := Answering(None);
      assert forall branches, w :: RunCase(b, branches, w) == CaseOf(branches, w);
    }
  }

  lemma RunCaseIs(b: Backend, branches: seq<(Value, Value)>, last: Option<Value>)
    ensures RunCase(b, branches, last) == CaseOf(branches, last)
  {
    CaseIs(Context(b, map[], map[]), branches, last);
  }

  lemma LastIs(t: Types, e: Ast, last: seq<Info>)
    requires (e.Case? || e.Mapping?) && InferOption(t, e.otherwise) == Some(last)
    ensures |last| <= 1 && (|last| == 1 ==> IsComplete(t.domain, e))
  {
  }

  lemma CaseNullable(infos: seq<(Info, Info)>, last: seq<Info>, complete: bool)
    requires AllSane(Results(infos)) && AllSane(last) && |last| <= 1 && (|last| == 1 ==> complete)
    requires infos != [] && forall k :: 0 <= k < |infos| ==> infos[k].0.family == BooleanFamily
    ensures !complete || AnyNullable(Results(infos) + last) <==>
      exists branches, w ::
        BranchesMatch(branches, infos) && LastMatches(w, last) && Takes(complete, branches, w) && CaseOf(branches, w) == Outcome.Ok(Null)
  {
    var results := Results(infos) + last;
    if !complete || AnyNullable(results) {
      var k: nat := |infos|;
      if AnyNullable(results) {
        k :| 0 <= k < |results| && results[k].nullable;
      }
      var branches := TakenAt(infos, k);
      var w := if |last| == 1 then Some(if k >= |infos| then Null else Sample(last[0].family, false)) else None;
      CaseTakes(branches, w, k);
      TakenMatches(infos, last, k);
      assert k < |infos| ==> branches[k].0 == Bool(true);
      assert BranchesMatch(branches, infos) && LastMatches(w, last) && Takes(complete, branches, w);
    }
    forall branches: seq<(Value, Value)>, w: Option<Value> |
      BranchesMatch(branches, infos) && LastMatches(w, last) && Takes(complete, branches, w) && CaseOf(branches, w) == Outcome.Ok(Null)
      ensures !complete || AnyNullable(results)
    {
      CaseResults(branches, infos, w);
      if w.Some? {
        assert results[|infos|] == last[0];
      }
      if k :| 0 <= k < |branches| && branches[k].0 == Bool(true) && CaseOf(branches, w).value == branches[k].1 {
        assert results[k] == infos[k].1;
      }
    }
  }

  lemma TakenMatches(infos: seq<(Info, Info)>, last: seq<Info>, k: nat)
    requires AllSane(Results(infos)) && AllSane(last) && |last| <= 1
    requires forall q :: 0 <= q < |infos| ==> infos[q].0.family == BooleanFamily
    requires k < |Results(infos) + last| ==> (Results(infos) + last)[k].nullable
    ensures BranchesMatch(TakenAt(infos, k), infos)
    ensures |last| == 1 && (k < |infos| || k == |infos|) ==>
      LastMatches(Some(if k >= |infos| then Null else Sample(last[0].family, false)), last)
  {
    forall q | 0 <= q < |infos| ensures Sane(infos[q].1) {
      assert Results(infos)[q] == infos[q].1;
    }
  }

  lemma {:induction false} MappingTakes(b: Backend, v: Value, branches: seq<(Value, Value)>, last: Option<Value>, k: nat)
    requires !v.Null? && forall q :: 0 <= q < |branches| ==>
      !branches[q].0.Null? && Comparable(v, branches[q].0) && (Same(v, branches[q].0) <==> q == k)
    ensures MappingOf(b, v, branches, last) ==
      if k < |branches| then Outcome.Ok(branches[k].1) else Outcome.Ok(if last.Some? then last.value else Null)
  {
    if branches != [] && k > 0 {
      assert forall q :: 0 <= q < |branches[1..]| ==> branches[1..][q] == branches[q + 1];
      MappingTakes(b, v, branches[1..], last, k - 1);
    }
  }

  /** The key is taken that equals the source. */
  predicate Hits(v: Value, key: Value) {
    !v.Null? && !key.Null? && Same(v, key)
  }

  lemma {:induction false} MappingResults(b: Backend, v: Value, branches: seq<(Value, Value)>, last: Option<Value>)
    requires forall k :: 0 <= k < |branches| ==> Comparable(v, branches[k].0)
    ensures MappingOf(b, v, branches, last).Ok?
    ensures
      || (exists k :: 0 <= k < |branches| && Hits(v, branches[k].0) && MappingOf(b, v, branches, last).value == branches[k].1)
      || ((forall k :: 0 <= k < |branches| ==> !Hits(v, branches[k].0))
          && MappingOf(b, v, branches, last).value == if last.Some? then last.value else Null)
  {
    if branches != [] {
      MappingResults(b, v, branches[1..], last);
      assert forall k :: 0 < k < |branches| ==> branches[k] == branches[1..][k - 1];
      if k :| 0 <= k < |branches[1..]| && Hits(v, branches[1..][k].0) && MappingOf(b, v, branches[1..], last).value == branches[1..][k].1 {
        assert Hits(v, branches[k + 1].0);
      }
    }
  }

  ghost predicate Meets(complete: bool, v: Value, branches: seq<(Value, Value)>, last: Option<Value>) {
    complete ==> last.Some? || exists k :: 0 <= k < |branches| && Hits(v, branches[k].0)
  }

  /** Values in which key `k` is the only one to equal the source, and its result is NULL. */
  function MetAt(infos: seq<(Info, Info)>, k: nat): (branches: seq<(Value, Value)>)
    ensures |branches| == |infos|
    ensures forall q :: 0 <= q < |infos| ==>
      branches[q] == (Sample(infos[q].0.family, q != k), if q == k then Null else Sample(infos[q].1.family, false))
  {
    seq(|infos|, q requires 0 <= q < |infos| =>
      (Sample(infos[q].0.family, q != k), if q == k then Null else Sample(infos[q].1.family, false)))
  }

  /** And a mapping likewise, where neither the source nor a key is the literal NULL. */
  lemma MappingExact(t: Types, e: Ast, i: Info, infos: seq<(Info, Info)>, last: seq<Info>)
    requires e.Mapping? && Infer(t, e.source) == Some(i) && BranchesTyped(t, e.entries, e.otherwise, infos, last)
    requires NoneNull([i] + Conditions(infos))
    ensures
      var results := Families(Results(infos) + last);
      Infer(t, e).Some? <==>
        (exists f :: CoversAll(f, {i.family} + Families(Conditions(infos)))) && exists f :: CoversAll(f, results)
    ensures Infer(t, e).Some? ==>
      var info, results, complete := Infer(t, e).value, Families(Results(infos) + last), IsComplete(t.domain, e);
      && CoversAll(info.family, results) && (forall f :: CoversAll(f, results) ==> Covers(f, info.family))
      && (info.nullable <==>
            exists b, v, branches, w ::
              && Matches(v, i) && BranchesMatch(branches, infos) && LastMatches(w, last) && Meets(complete, v, branches, w)
              && RunMapping(b, v, branches, w) == Outcome.Ok(Null))
  {
    hide MergeFamilies, IsComplete, Covers, CoversAll, RunMapping, MappingOf;
    var results := Results(infos) + last;
    MergeIsLeast(Families(results));
    MergeIsLeast({i.family} + Families(Conditions(infos)));
    if Infer(t, e).Some? {
      LastIs(t, e, last);
      MappingNullable(i, infos, last, IsComplete(t.domain, e));
    }
  }

  lemma RunMappingIs(b: Backend, v: Value, branches: seq<(Value, Value)>, last: Option<Value>)
    ensures RunMapping(b, v, branches, last) == MappingOf(b, v, branches, last)
  {
    MappingIs(Context(b, map[], map[]), v, branches, last);
  }

  lemma KeysAlike(i: Info, infos: seq<(Info, Info)>, q: nat)
    requires q < |infos| && MergeFamilies({i.family} + Families(Conditions(infos))).Some? && NoneNull([i] + Conditions(infos))
    ensures i.family != NullFamily && infos[q].0.family != NullFamily
    ensures infos[q].0.family == i.family || {i.family, infos[q].0.family} == {IntegerFamily, NumericFamily}
    ensures forall v, w :: Fits(v, i.family) && Fits(w, infos[q].0.family) ==> Comparable(v, w)
    ensures Same(Sample(i.family, false), Sample(infos[q].0.family, false))
  {
    var all := [i] + Conditions(infos);
    assert all[0] == i && all[q + 1] == Conditions(infos)[q] == infos[q].0;
    MergedAlike({i.family} + Families(Conditions(infos)), i.family, infos[q].0.family);
    if infos[q].0.family != i.family {
      assert i.family in {IntegerFamily, NumericFamily} && infos[q].0.family in {i.family, infos[q].0.family};
    }
  }

  lemma MappingNullable(i: Info, infos: seq<(Info, Info)>, last: seq<Info>, complete: bool)
    requires AllSane(Results(infos)) && AllSane(last) && |last| <= 1 && (|last| == 1 ==> complete) && infos != []
    requires MergeFamilies({i.family} + Families(Conditions(infos))).Some? && NoneNull([i] + Conditions(infos))
    ensures !complete || AnyNullable(Results(infos) + last) <==>
      exists b, v, branches, w ::
        && Matches(v, i) && BranchesMatch(branches, infos) && LastMatches(w, last) && Meets(complete, v, branches, w)
        && RunMapping(b, v, branches, w) == Outcome.Ok(Null)
  {
    hide MergeFamilies, Same, Comparable, NoneNull, RunMapping;
    var results := Results(infos) + last;
    if !complete || AnyNullable(results) {
      var k: nat := |infos|;
      if AnyNullable(results) {
        k :| 0 <= k < |results| && results[k].nullable;
      }
      MappingWitness(i, infos, last, complete, k);
    }
    forall b: Backend, v: Value, branches: seq<(Value, Value)>, w: Option<Value> |
      && Matches(v, i) && BranchesMatch(branches, infos) && LastMatches(w, last) && Meets(complete, v, branches, w)
      && RunMapping(b, v, branches, w) == Outcome.Ok(Null)
      ensures !complete || AnyNullable(results)
    {
      forall k | 0 <= k < |branches| ensures Comparable(v, branches[k].0) {
        KeysAlike(i, infos, k);
      }
      RunMappingIs(b, v, branches, w);
      MappingResults(b, v, branches, w);
      if w.Some? {
        assert results[|infos|] == last[0];
      }
      if k :| 0 <= k < |branches| && Hits(v, branches[k].0) && MappingOf(b, v, branches, w).value == branches[k].1 {
        assert results[k] == infos[k].1;
      }
    }
  }

  lemma MappingWitness(i: Info, infos: seq<(Info, Info)>, last: seq<Info>, complete: bool, k: nat)
    requires AllSane(Results(infos)) && AllSane(last) && |last| <= 1 && (|last| == 1 ==> complete) && infos != []
    requires MergeFamilies({i.family} + Families(Conditions(infos))).Some? && NoneNull([i] + Conditions(infos))
    requires if k < |Results(infos) + last| then (Results(infos) + last)[k].nullable else k == |infos| && !complete
    ensures exists b, v, branches, w ::
      && Matches(v, i) && BranchesMatch(branches, infos) && LastMatches(w, last) && Meets(complete, v, branches, w)
      && RunMapping(b, v, branches, w) == Outcome.Ok(Null)
  {
    hide MergeFamilies, Same, Comparable, NoneNull, MappingOf, RunMapping, Sample, Fits, Families, Hits;
    var b, v, branches := Answering(None), Sample(i.family, false), MetAt(infos, k);
    var w := if |last| == 1 then Some(if k >= |infos| then Null else Sample(last[0].family, false)) else None;
    KeysAlike(i, infos, 0);
    SampleMatches(i, false);
    forall q | 0 <= q < |infos|
      ensures !v.Null? && !branches[q].0.Null? && Comparable(v, branches[q].0) && (Same(v, branches[q].0) <==> q == k)
      ensures Matches(branches[q].0, infos[q].0) && Matches(branches[q].1, infos[q].1)
    {
      KeysAlike(i, infos, q);
      SamplesDiffer(i.family, infos[q].0.family);
      SampleMatches(infos[q].0, q != k);
      assert Results(infos)[q] == infos[q].1;
      SampleMatches(infos[q].1, false);
      NullFits(infos[q].1);
    }
    if |last| == 1 {
      SampleMatches(last[0], false);
    }
    MappingTakes(b, v, branches, w, k);
    RunMappingIs(b, v, branches, w);
    HitsIs(v, if k < |infos| then branches[k].0 else Null);
    NullFits(if k < |infos| then infos[k].1 else if |last| == 1 then last[0] else i);
    assert BranchesMatch(branches, infos) && LastMatches(w, last) && Meets(complete, v, branches, w) && Matches(v, i);
  }

  lemma SampleMatches(i: Info, second: bool)
    requires Sane(i)
    ensures Matches(Sample(i.family, second), i) && (Sample(i.family, second).Null? <==> i.family == NullFamily)
  {
  }

  lemma HitsIs(v: Value, key: Value)
    ensures Hits(v, key) <==> !v.Null? && !key.Null? && Same(v, key)
  {
  }

  lemma NullFits(i: Info)
    ensures i.nullable ==> Matches(Null, i)
  {
  }
}
