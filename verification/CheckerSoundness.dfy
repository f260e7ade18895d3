/** An accepted expression never surprises its target column on a row of the domain. */
module CheckerSoundness {
  import opened Options
  import opened Expressions
  import opened Implication
  import opened Checker

  /** The one table that an expression is about. */
  datatype Table = Table(name: string, columns: set<string>)

  /** No qualified column reads like the name of another: what a set of reference strings cannot tell apart. */
  predicate Unambiguous(table: Table) {
    forall n :: n in table.columns ==> table.name + "." + n !in table.columns
  }

  /** A reference to a column. Without its table a name has no dot: one that has would have been split there. */
  predicate ColumnOf(table: Table, name: string, owner: Option<string>) {
    name in table.columns && if owner.Some? then owner.value == table.name else '.' !in name
  }

  /** The shape that canonicalisation guarantees; columns all belong to one table. */
  predicate WellFormed(e: Ast, table: Table, parameters: map<string, Value>)
    decreases e, 1
  {
    match e
    case Column(name, owner) => ColumnOf(table, name, owner)
    case Literal(_) => true
    case Parameter(name, declared) =>
      name in parameters && declared.Some? ==> Fits(parameters[name], declared.value)
    case Arith(_, l, r) => WellFormed(l, table, parameters) && WellFormed(r, table, parameters)
    case Compare(_, l, r) => WellFormed(l, table, parameters) && WellFormed(r, table, parameters)
    case And(l, r) => WellFormed(l, table, parameters) && WellFormed(r, table, parameters)
    case Or(l, r) => WellFormed(l, table, parameters) && WellFormed(r, table, parameters)
    case Is(_, l, r) => WellFormed(l, table, parameters) && WellFormed(r, table, parameters)
    case Not(a) => WellFormed(a, table, parameters)
    case Neg(a) => WellFormed(a, table, parameters)
    case Cast(a, _) => WellFormed(a, table, parameters)
    case In(source, values) => WellFormed(source, table, parameters) && AllWellFormed(values, table, parameters)
    case Function(name, args) => AllWellFormed(args, table, parameters) && Arity(name, args)
    case Case(whens, otherwise) =>
      whens != [] && BranchesWellFormed(whens, table, parameters) &&
      (otherwise.Some? ==> WellFormed(otherwise.value, table, parameters))
    case Mapping(source, entries, otherwise) =>
      entries != [] && WellFormed(source, table, parameters) && BranchesWellFormed(entries, table, parameters) &&
      (otherwise.Some? ==> WellFormed(otherwise.value, table, parameters))
  }

  predicate AllWellFormed(es: seq<Ast>, table: Table, parameters: map<string, Value>)
    decreases es, 0
  {
    es == [] || (WellFormed(es[0], table, parameters) && AllWellFormed(es[1..], table, parameters))
  }

  predicate BranchesWellFormed(branches: seq<Branch>, table: Table, parameters: map<string, Value>)
    decreases branches, 0
  {
    branches == [] ||
    (var first := branches[0];
     assert first.when < first && first.then_ < first;
     && WellFormed(first.when, table, parameters) && WellFormed(first.then_, table, parameters)
     && BranchesWellFormed(branches[1..], table, parameters))
  }

  predicate TextLiteral(e: Ast) {
    e.Literal? && e.literal.Text?
  }

  /** Argument counts, and the arguments that must be spelled out. */
  predicate Arity(name: FunctionName, args: seq<Ast>) {
    match name
    case Lower | Upper | Trim => |args| == 1
    case Concat | Coalesce => |args| >= 2
    case JsonExtract => |args| == 2 && TextLiteral(args[1])
    case SplitPart => |args| == 3 && TextLiteral(args[1]) && args[2].Literal? && args[2].literal.Int?
    case DateTrunc => |args| == 3 && TextLiteral(args[0]) && TextLiteral(args[2])
  }

  predicate Matches(v: Value, info: Info) {
    Fits(v, info.family) && (v.Null? ==> info.nullable)
  }

  /** The row has a value of the declared type for every column, and the parameters are bound. */
  ghost predicate Conforms(t: Types, c: Context, table: Table) {
    && c.parameters == t.parameters
    && forall name: string, owner: Option<string> ::
         ColumnOf(table, name, owner) && Reference(owner, name) in t.columns ==>
           name in c.row && Matches(c.row[name], t.columns[Reference(owner, name)])
  }

  /** The row is in the domain. */
  ghost predicate InDomain(t: Types, c: Context, table: Table) {
    t.domain.Some? ==> WellFormed(t.domain.value, table, t.parameters) && Eval(c, t.domain.value) == Ok(Bool(true))
  }

  /** What inference promises of an evaluation: no type error, and a value of the inferred kind. */
  predicate Sound(v: Outcome, info: Info) {
    match v
    case Err(failure) => failure != Mismatch
    case Ok(value) => Matches(value, info)
  }

  // ---------- families ----------

  lemma MergedFits(families: set<Family>, f: Family, v: Value)
    requires MergeFamilies(families).Some? && f in families && Fits(v, f)
    ensures Fits(v, MergeFamilies(families).value)
  {
    if f != NullFamily {
      assert f in families - {NullFamily};
    }
  }

  lemma MergedComparable(families: set<Family>, f: Family, g: Family, v: Value, w: Value)
    requires MergeFamilies(families).Some? && f in families && g in families && Fits(v, f) && Fits(w, g)
    ensures Comparable(v, w)
  {
    MergedFits(families, f, v);
    MergedFits(families, g, w);
  }

  lemma ReferencesApart(table: Table, name: string, owner: Option<string>, other: string, owner': Option<string>)
    requires Unambiguous(table) && ColumnOf(table, name, owner) && ColumnOf(table, other, owner')
    requires name in {other, Reference(owner', other)} || Reference(owner, name) in {other, Reference(owner', other)}
    ensures name == other
  {
    assert (table.name + "." + name)[|table.name| + 1..] == name;
    assert (table.name + "." + other)[|table.name| + 1..] == other;
  }

  /** A column the domain declares non-null is not null on a row of the domain. */
  lemma {:induction false} NonNullSound(c: Context, domain: Ast, table: Table, parameters: map<string, Value>,
                                        name: string, owner: Option<string>)
    requires Unambiguous(table) && WellFormed(domain, table, parameters) && Eval(c, domain) == Ok(Bool(true))
    requires ColumnOf(table, name, owner)
    requires name in DomainNonNull(domain) || Reference(owner, name) in DomainNonNull(domain)
    ensures name in c.row && !c.row[name].Null?
  {
    match domain
    case And(l, r) =>
      if name in DomainNonNull(l) || Reference(owner, name) in DomainNonNull(l) {
        NonNullSound(c, l, table, parameters, name, owner);
      } else {
        NonNullSound(c, r, table, parameters, name, owner);
      }
    case Is(true, Column(column, owner'), Literal(Null)) =>
      ReferencesApart(table, name, owner, column, owner');
    case _ =>
  }

  /** Every column that a domain declares non-null holds a value on every row of that domain. */
  ghost predicate FactsHold(b: Backend, table: Table) {
    forall row: map<string, Value>, parameters: map<string, Value>, domain: Ast, name: string, owner: Option<string> ::
      (var c := Context(b, row, parameters);
       && WellFormed(domain, table, parameters) && Eval(c, domain) == Ok(Bool(true)) && ColumnOf(table, name, owner)
       && (name in DomainNonNull(domain) || Reference(owner, name) in DomainNonNull(domain)))
      ==> name in row && !row[name].Null?
  }

  /** The domain facts can be trusted exactly when the names of the table's columns cannot be confused. */
  lemma FactsHoldIff(b: Backend, table: Table)
    ensures FactsHold(b, table) <==> Unambiguous(table)
  {
    if Unambiguous(table) {
      forall row: map<string, Value>, parameters: map<string, Value>, domain: Ast, name: string, owner: Option<string> |
        (var c := Context(b, row, parameters);
         && WellFormed(domain, table, parameters) && Eval(c, domain) == Ok(Bool(true)) && ColumnOf(table, name, owner)
         && (name in DomainNonNull(domain) || Reference(owner, name) in DomainNonNull(domain)))
        ensures name in row && !row[name].Null?
      {
        NonNullSound(Context(b, row, parameters), domain, table, parameters, name, owner);
      }
    } else {
      var n :| n in table.columns && table.name + "." + n in table.columns;
      var domain, c := MistakenDomain(table, n), MistakenRow(b, table, n);
      MistakenFact(b, table, n);
      assert Context(b, c.row, map[]) == c && c.row[n].Null?;
    }
  }

  /** A domain about a column whose name reads like a qualified `n` ... */
  function MistakenDomain(table: Table, n: string): Ast {
    Is(true, Column(table.name + "." + n, Some(table.name)), Literal(Null))
  }

  /** ... and a row of it on which `n` is NULL. */
  function MistakenRow(b: Backend, table: Table, n: string): Context {
    Context(b, map name | name in table.columns :: if name == n then Null else Text(""), map[])
  }

  lemma MistakenFact(b: Backend, table: Table, n: string)
    requires n in table.columns && table.name + "." + n in table.columns
    ensures WellFormed(MistakenDomain(table, n), table, map[]) && ColumnOf(table, n, Some(table.name))
    ensures Eval(MistakenRow(b, table, n), MistakenDomain(table, n)) == Ok(Bool(true))
    ensures Reference(Some(table.name), n) in DomainNonNull(MistakenDomain(table, n))
    ensures MistakenRow(b, table, n).row[n].Null?
  {
    assert |table.name + "." + n| > |n|;
  }

  // ---------- operators ----------

  lemma CalculateSound(op: Arithmetic, v: Value, w: Value, i: Info, j: Info)
    requires Matches(v, i) && Matches(w, j) && NumericInfo(i) && NumericInfo(j)
    ensures MergeFamilies({i.family, j.family}).Some?
    ensures Sound(Calculate(op, v, w), Info(MergeFamilies({i.family, j.family}).value, i.nullable || j.nullable))
  {
    var families := {i.family, j.family};
    assert families - {NullFamily} == families;
    MergedFits(families, i.family, v);
    MergedFits(families, j.family, w);
  }

  lemma CompareSound(b: Backend, op: Comparison, v: Value, w: Value, i: Info, j: Info)
    requires Matches(v, i) && Matches(w, j) && MergeFamilies({i.family, j.family}).Some?
    ensures Sound(CompareValues(b, op, v, w), Info(BooleanFamily, i.nullable || j.nullable))
  {
    MergedComparable({i.family, j.family}, i.family, j.family, v, w);
  }

  ghost predicate AllSound(items: seq<Outcome>, infos: seq<Info>) {
    |items| == |infos| && forall k :: 0 <= k < |items| ==> Sound(items[k], infos[k])
  }

  lemma NullableCons(infos: seq<Info>)
    requires infos != []
    ensures AnyNullable(infos) <==> infos[0].nullable || AnyNullable(infos[1..])
  {
    assert forall k :: 0 < k < |infos| ==> infos[k] == infos[1..][k - 1];
    assert forall k :: 0 <= k < |infos[1..]| ==> infos[1..][k] == infos[k + 1];
  }

  lemma BothSound(v: Outcome, w: Outcome, i: Info, j: Info)
    requires Sound(v, i) && Sound(w, j) && i.family == j.family == BooleanFamily
    ensures Sound(Both(v, w), Info(BooleanFamily, i.nullable || j.nullable))
  {
  }

  lemma EitherSound(v: Outcome, w: Outcome, i: Info, j: Info)
    requires Sound(v, i) && Sound(w, j) && i.family == j.family == BooleanFamily
    ensures Sound(Either(v, w), Info(BooleanFamily, i.nullable || j.nullable))
  {
  }

  lemma {:induction false} MemberSound(b: Backend, v: Value, i: Info, items: seq<Outcome>, infos: seq<Info>, families: set<Family>)
    requires Matches(v, i) && AllSound(items, infos) && MergeFamilies(families).Some?
    requires i.family in families && forall k :: 0 <= k < |infos| ==> infos[k].family in families
    ensures Sound(Member(b, v, items), Info(BooleanFamily, i.nullable || AnyNullable(infos)))
  {
    hide MergeFamilies, AnyNullable;
    if items != [] {
      assert Sound(items[0], infos[0]) && infos[0].family in families;
      MemberSound(b, v, i, items[1..], infos[1..], families);
      NullableCons(infos);
      if items[0].Ok? {
        MergedComparable(families, i.family, infos[0].family, v, items[0].value);
        var first := CompareValues(b, Eq, v, items[0].value);
        EitherSound(first, Member(b, v, items[1..]), Info(BooleanFamily, i.nullable || infos[0].nullable),
                    Info(BooleanFamily, i.nullable || AnyNullable(infos[1..])));
      }
    }
  }

  lemma {:induction false} CoalesceSound(items: seq<Outcome>, infos: seq<Info>, family: Family)
    requires AllSound(items, infos)
    requires forall k :: 0 <= k < |items| && items[k].Ok? ==> Fits(items[k].value, family)
    ensures Sound(FirstNonNull(items), Info(family, AllNullable(infos)))
  {
    if items != [] && items[0].Ok? && items[0].value.Null? {
      CoalesceSound(items[1..], infos[1..], family);
      assert AllNullable(infos[1..]) && infos[0].nullable ==> AllNullable(infos) by {
        assert forall k :: 0 < k < |infos| ==> infos[k] == infos[1..][k - 1];
      }
    }
  }

  lemma {:induction false} FirstErrorSound(items: seq<Outcome>, infos: seq<Info>, info: Info)
    requires AllSound(items, infos) && !AllOk(items)
    ensures Sound(FirstError(items), info)
  {
    if !items[0].Err? {
      assert exists k :: 0 < k < |items| && items[k].Err? && items[1..][k - 1].Err?;
      FirstErrorSound(items[1..], infos[1..], info);
    }
  }

  lemma NullsAreNullable(items: seq<Outcome>, infos: seq<Info>)
    requires AllSound(items, infos) && AllOk(items) && AnyNull(items)
    ensures AnyNullable(infos)
  {
    var k :| 0 <= k < |items| && items[k].value.Null?;
    assert Sound(items[k], infos[k]);
  }

  /** The arguments that must be spelled out are what they are. */
  ghost predicate SpelledOut(name: FunctionName, items: seq<Outcome>) {
    match name
    case Lower | Upper | Trim => |items| == 1
    case Concat | Coalesce => |items| >= 2
    case JsonExtract => |items| == 2 && items[1].Ok? && items[1].value.Text?
    case SplitPart => |items| == 3 && items[1].Ok? && items[1].value.Text? && items[2].Ok? && items[2].value.Int?
    case DateTrunc => |items| == 3 && items[0].Ok? && items[0].value.Text? && items[2].Ok? && items[2].value.Text?
  }

  lemma ApplySound(b: Backend, name: FunctionName, items: seq<Outcome>, infos: seq<Info>)
    requires AllSound(items, infos) && InferFunction(name, infos).Some? && SpelledOut(name, items)
    ensures Sound(Apply(b, name, items), InferFunction(name, infos).value)
  {
    var info := InferFunction(name, infos).value;
    if name == Coalesce {
      forall k | 0 <= k < |items| && items[k].Ok? ensures Fits(items[k].value, info.family) {
        MergedFits(Families(infos), infos[k].family, items[k].value);
      }
      CoalesceSound(items, infos, info.family);
    } else if !AllOk(items) {
      FirstErrorSound(items, infos, info);
    } else if name == Lower || name == Upper || name == Trim {
      assert Sound(items[0], infos[0]);
    } else if name == Concat {
      forall k | 0 <= k < |items| ensures items[k].value.Text? || items[k].value.Null? {
        assert Sound(items[k], infos[k]);
      }
      if AnyNull(items) {
        NullsAreNullable(items, infos);
      }
    } else {
      assert Sound(items[0], infos[0]) && Sound(items[1], infos[1]);
    }
  }

  // ---------- the induction over expressions ----------

  /** The assumptions about a row under which an expression was checked. */
  ghost predicate OnRow(t: Types, c: Context, table: Table) {
    Conforms(t, c, table) && InDomain(t, c, table)
  }

  /** Inference is sound: on a row of the domain the value has the inferred family and nullability. */
  lemma {:induction false} InferSound(t: Types, c: Context, table: Table, e: Ast)
    requires Unambiguous(table) && OnRow(t, c, table) && WellFormed(e, table, t.parameters) && Infer(t, e).Some?
    ensures Sound(Eval(c, e), Infer(t, e).value)
    decreases e, 1
  {
    hide Unambiguous, OnRow, Calculate, CompareValues, MergeFamilies, Apply, Member, InferFunction, Both, Either;
    match e
    case Column(name, owner) => ColumnSound(t, c, table, name, owner);
    case Literal(v) =>
    case Parameter(name, declared) => ParameterSound(t, c, table, name, declared);
    case Arith(op, l, r) =>
      InferSound(t, c, table, l);
      InferSound(t, c, table, r);
      if Eval(c, l).Ok? && Eval(c, r).Ok? {
        CalculateSound(op, Eval(c, l).value, Eval(c, r).value, Infer(t, l).value, Infer(t, r).value);
      }
    case Compare(op, l, r) =>
      InferSound(t, c, table, l);
      InferSound(t, c, table, r);
      if Eval(c, l).Ok? && Eval(c, r).Ok? {
        CompareSound(c.backend, op, Eval(c, l).value, Eval(c, r).value, Infer(t, l).value, Infer(t, r).value);
      }
    case And(l, r) =>
      InferSound(t, c, table, l);
      InferSound(t, c, table, r);
      BothSound(Eval(c, l), Eval(c, r), Infer(t, l).value, Infer(t, r).value);
    case Or(l, r) =>
      InferSound(t, c, table, l);
      InferSound(t, c, table, r);
      EitherSound(Eval(c, l), Eval(c, r), Infer(t, l).value, Infer(t, r).value);
    case Is(_, l, r) =>
      InferSound(t, c, table, l);
      InferSound(t, c, table, r);
    case Not(a) => InferSound(t, c, table, a);
    case Neg(a) => InferSound(t, c, table, a);
    case Cast(a, _) => InferSound(t, c, table, a);
    case In(source, values) =>
      InferSound(t, c, table, source);
      InferAllSound(t, c, table, values);
      var (i, infos) := (Infer(t, source).value, InferAll(t, values).value);
      if Eval(c, source).Ok? {
        MemberSound(c.backend, Eval(c, source).value, i, EvalAll(c, values), infos, {i.family} + Families(infos));
      }
    case Function(name, args) =>
      InferAllSound(t, c, table, args);
      assert SpelledOut(name, EvalAll(c, args));
      ApplySound(c.backend, name, EvalAll(c, args), InferAll(t, args).value);
    case Case(whens, otherwise) => CaseSound(t, c, table, e);
    case Mapping(source, entries, otherwise) => MappingSound(t, c, table, e);
  }

  lemma ColumnSound(t: Types, c: Context, table: Table, name: string, owner: Option<string>)
    requires Unambiguous(table) && OnRow(t, c, table) && WellFormed(Column(name, owner), table, t.parameters)
    requires Infer(t, Column(name, owner)).Some?
    ensures Sound(Eval(c, Column(name, owner)), Infer(t, Column(name, owner)).value)
  {
    if name in NonNull(t.domain) || Reference(owner, name) in NonNull(t.domain) {
      NonNullSound(c, t.domain.value, table, t.parameters, name, owner);
    }
  }

  lemma ParameterSound(t: Types, c: Context, table: Table, name: string, declared: Option<TypeFamily>)
    requires OnRow(t, c, table) && WellFormed(Parameter(name, declared), table, t.parameters)
    requires Infer(t, Parameter(name, declared)).Some?
    ensures Sound(Eval(c, Parameter(name, declared)), Infer(t, Parameter(name, declared)).value)
  {
  }

  lemma {:induction false} InferAllSound(t: Types, c: Context, table: Table, es: seq<Ast>)
    requires Unambiguous(table) && OnRow(t, c, table) && AllWellFormed(es, table, t.parameters) && InferAll(t, es).Some?
    ensures AllSound(EvalAll(c, es), InferAll(t, es).value)
    decreases es, 0
  {
    hide Unambiguous, OnRow, Sound;
    if es != [] {
      InferSound(t, c, table, es[0]);
      InferAllSound(t, c, table, es[1..]);
      var (items, infos) := (EvalAll(c, es[1..]), InferAll(t, es[1..]).value);
      assert EvalAll(c, es) == [Eval(c, es[0])] + items;
      assert InferAll(t, es).value == [Infer(t, es[0]).value] + infos;
    }
  }

  /** The value of the branch a CASE takes is one of the branch values, or a failed condition. */
  lemma {:induction false} BranchesSound(t: Types, c: Context, table: Table, whens: seq<Branch>, info: Info)
    requires Unambiguous(table) && OnRow(t, c, table) && BranchesWellFormed(whens, table, t.parameters) && InferBranches(t, whens).Some?
    requires forall i :: 0 <= i < |whens| ==> InferBranches(t, whens).value[i].0.family == BooleanFamily
    requires forall i :: 0 <= i < |whens| ==> Widens(InferBranches(t, whens).value[i].1, info)
    ensures EvalCase(c, whens).Some? ==> Sound(EvalCase(c, whens).value, info)
    decreases whens, 0
  {
    hide Unambiguous, OnRow;
    if whens != [] {
      var (first, infos) := (whens[0], InferBranches(t, whens).value);
      assert first.when < first && first.then_ < first;
      InferSound(t, c, table, first.when);
      InferSound(t, c, table, first.then_);
      assert InferBranches(t, whens[1..]).value == infos[1..];
      assert Widens(infos[0].1, info);
      BranchesSound(t, c, table, whens[1..], info);
      WidenedSound(Eval(c, first.then_), infos[0].1, info);
    }
  }

  /** Every value of the first kind is a value of the second. */
  ghost predicate Widens(i: Info, j: Info) {
    (i.nullable ==> j.nullable) && forall v: Value :: Fits(v, i.family) ==> Fits(v, j.family)
  }

  lemma WidenedSound(v: Outcome, i: Info, j: Info)
    requires Sound(v, i) && Widens(i, j)
    ensures Sound(v, j)
  {
  }

  lemma MergedWidens(infos: seq<Info>, nullable: bool, k: nat)
    requires k < |infos| && Merged(Families(infos), nullable).Some? && (infos[k].nullable ==> nullable)
    ensures Widens(infos[k], Merged(Families(infos), nullable).value)
  {
    forall v: Value | Fits(v, infos[k].family) ensures Fits(v, MergeFamilies(Families(infos)).value) {
      MergedFits(Families(infos), infos[k].family, v);
    }
  }

  /** On a row of the domain a complete CASE or mapping does not run out of branches. */
  lemma CompleteTakes(t: Types, c: Context, table: Table, e: Ast)
    requires OnRow(t, c, table) && (e.Case? || e.Mapping?) && e.otherwise.None? && IsComplete(t.domain, e)
    ensures !FallsThrough(c, e)
  {
    ImpliesSound(c, t.domain.value, PartialCoverage(e).value);
    CoverageHolds(c, e);
  }

  lemma CaseSound(t: Types, c: Context, table: Table, e: Ast)
    requires Unambiguous(table) && e.Case? && OnRow(t, c, table) && WellFormed(e, table, t.parameters) && Infer(t, e).Some?
    ensures Sound(Eval(c, e), Infer(t, e).value)
    decreases e, 0
  {
    hide Unambiguous, OnRow, Sound, Widens, MergeFamilies, IsComplete, Merged, Results, EvalCase;
    var (whens, otherwise) := (e.whens, e.otherwise);
    var branches, last := InferBranches(t, whens).value, InferOption(t, otherwise).value;
    var nullable := !IsComplete(t.domain, e) || AnyNullable(Results(branches) + last);
    var info := Merged(Families(Results(branches) + last), nullable).value;
    ResultsWiden(branches, last, nullable);
    BranchesSound(t, c, table, whens, info);
    if EvalCase(c, whens).None? {
      if otherwise.Some? {
        InferSound(t, c, table, otherwise.value);
        WidenedSound(Eval(c, otherwise.value), last[0], info);
      } else {
        MergedNullable(Results(branches) + last, nullable);
        MissingElse(t, c, table, e, info);
      }
    }
  }

  lemma MissingElse(t: Types, c: Context, table: Table, e: Ast, info: Info)
    requires (e.Case? || e.Mapping?) && e.otherwise.None? && OnRow(t, c, table) && FallsThrough(c, e)
    requires !IsComplete(t.domain, e) ==> info.nullable
    ensures Sound(Ok(Null), info)
  {
    hide Unambiguous, OnRow, IsComplete, FallsThrough;
    if IsComplete(t.domain, e) {
      CompleteTakes(t, c, table, e);
    }
  }

  lemma {:induction false} EntriesSound(t: Types, c: Context, table: Table, v: Value, i: Info, entries: seq<Branch>,
                                        families: set<Family>, info: Info)
    requires Unambiguous(table) && OnRow(t, c, table) && BranchesWellFormed(entries, table, t.parameters) && InferBranches(t, entries).Some?
    requires Matches(v, i) && i.family in families && MergeFamilies(families).Some?
    requires forall k :: 0 <= k < |entries| ==> InferBranches(t, entries).value[k].0.family in families
    requires forall k :: 0 <= k < |entries| ==> Widens(InferBranches(t, entries).value[k].1, info)
    ensures EvalMapping(c, v, entries).Some? ==> Sound(EvalMapping(c, v, entries).value, info)
    decreases entries, 0
  {
    hide Unambiguous, OnRow, MergeFamilies;
    if entries != [] {
      var (first, infos) := (entries[0], InferBranches(t, entries).value);
      assert first.when < first && first.then_ < first;
      InferSound(t, c, table, first.when);
      InferSound(t, c, table, first.then_);
      assert InferBranches(t, entries[1..]).value == infos[1..];
      assert Widens(infos[0].1, info) && infos[0].0.family in families;
      EntriesSound(t, c, table, v, i, entries[1..], families, info);
      WidenedSound(Eval(c, first.then_), infos[0].1, info);
      if Eval(c, first.when).Ok? {
        MergedComparable(families, i.family, infos[0].0.family, v, Eval(c, first.when).value);
      }
    }
  }

  lemma ResultsWiden(branches: seq<(Info, Info)>, last: seq<Info>, nullable: bool)
    requires Merged(Families(Results(branches) + last), nullable).Some?
    requires AnyNullable(Results(branches) + last) ==> nullable
    ensures var info := Merged(Families(Results(branches) + last), nullable).value;
      && (forall k :: 0 <= k < |branches| ==> Widens(branches[k].1, info))
      && (forall k :: 0 <= k < |last| ==> Widens(last[k], info))
  {
    hide Widens, Merged;
    var results := Results(branches) + last;
    forall k | 0 <= k < |results| ensures Widens(results[k], Merged(Families(results), nullable).value) {
      MergedWidens(results, nullable, k);
    }
    assert forall k :: 0 <= k < |branches| ==> branches[k].1 == results[k];
    assert forall k :: 0 <= k < |last| ==> last[k] == results[|branches| + k];
  }

  lemma MappingSound(t: Types, c: Context, table: Table, e: Ast)
    requires Unambiguous(table) && e.Mapping? && OnRow(t, c, table) && WellFormed(e, table, t.parameters) && Infer(t, e).Some?
    ensures Sound(Eval(c, e), Infer(t, e).value)
    decreases e, 0
  {
    hide Unambiguous, OnRow, Widens, MergeFamilies, IsComplete, Merged, Results, EvalMapping;
    var (source, entries, otherwise) := (e.source, e.entries, e.otherwise);
    var i, branches, last := Infer(t, source).value, InferBranches(t, entries).value, InferOption(t, otherwise).value;
    var nullable := !IsComplete(t.domain, e) || AnyNullable(Results(branches) + last);
    var info := Merged(Families(Results(branches) + last), nullable).value;
    ResultsWiden(branches, last, nullable);
    assert forall k :: 0 <= k < |entries| ==> branches[k].0 == Conditions(branches)[k];
    InferSound(t, c, table, source);
    var v := Eval(c, source);
    if v.Ok? {
      EntriesSound(t, c, table, v.value, i, entries, {i.family} + Families(Conditions(branches)), info);
      if EvalMapping(c, v.value, entries).None? {
        if otherwise.Some? {
          InferSound(t, c, table, otherwise.value);
          WidenedSound(Eval(c, otherwise.value), last[0], info);
        } else {
          MergedNullable(Results(branches) + last, nullable);
          MissingElse(t, c, table, e, info);
        }
      }
    }
  }

  lemma MergedNullable(infos: seq<Info>, nullable: bool)
    requires Merged(Families(infos), nullable).Some?
    ensures Merged(Families(infos), nullable).value.nullable == nullable
  {
  }

  // ---------- the theorems ----------

  /** No type error, never NULL into a column that forbids it, always a value of its family. */
  ghost predicate Assigns(c: Context, e: Ast, target: Family, nullable: bool) {
    && Eval(c, e) != Err(Mismatch)
    && (Eval(c, e).Ok? ==> Fits(Eval(c, e).value, target) && (Eval(c, e).value.Null? ==> nullable))
  }

  /** An accepted assignment puts into its target only what the target takes. */
  lemma AssignmentSound(t: Types, c: Context, table: Table, e: Ast, target: Family, nullable: bool)
    requires Unambiguous(table) && OnRow(t, c, table) && WellFormed(e, table, t.parameters)
    requires ValidAssignment(t, e, target, nullable)
    ensures Assigns(c, e, target, nullable)
  {
    hide Unambiguous, OnRow, WellFormed, Eval, Infer;
    InferSound(t, c, table, e);
  }

  /** Every accepted assignment is sound on every row of its domain. */
  ghost predicate AssignmentsHold(b: Backend, table: Table) {
    forall t: Types, c: Context, e: Ast, target: Family, nullable: bool ::
      c.backend == b && OnRow(t, c, table) && WellFormed(e, table, t.parameters) && ValidAssignment(t, e, target, nullable)
      ==> Assigns(c, e, target, nullable)
  }

  /**
   * The check is sound for a table exactly when no column reads like a qualified name of another: references
   * are plain strings, so a domain fact about column "a.b" of table "a" is taken for one about its column "b".
   */
  lemma AssignmentsHoldIff(b: Backend, table: Table)
    ensures AssignmentsHold(b, table) <==> Unambiguous(table)
  {
    if Unambiguous(table) {
      forall t: Types, c: Context, e: Ast, target: Family, nullable: bool |
        c.backend == b && OnRow(t, c, table) && WellFormed(e, table, t.parameters) && ValidAssignment(t, e, target, nullable)
        ensures Assigns(c, e, target, nullable)
      {
        AssignmentSound(t, c, table, e, target, nullable);
      }
    } else {
      var n :| n in table.columns && table.name + "." + n in table.columns;
      var t, c, e := MisleadingNames(b, table, n);
      assert !Assigns(c, e, TextFamily, false);
    }
  }

  /** What the checker is told of a table whose columns may all be NULL: each under its name and its qualified name. */
  function TextColumns(table: Table): map<string, Info> {
    var qualified := set name | name in table.columns :: table.name + "." + name;
    var names := table.columns + qualified;
    map name | name in names :: Info(TextFamily, true)
  }

  /** The accepted assignment that lets NULL through. */
  lemma MisleadingNames(b: Backend, table: Table, n: string) returns (t: Types, c: Context, e: Ast)
    requires n in table.columns && table.name + "." + n in table.columns
    ensures c.backend == b && OnRow(t, c, table) && WellFormed(e, table, t.parameters)
    ensures t.columns == TextColumns(table) && t.domain == Some(MistakenDomain(table, n))
    ensures ValidAssignment(t, e, TextFamily, false) && Eval(c, e) == Ok(Null)
  {
    t, c := Types(TextColumns(table), map[], Some(MistakenDomain(table, n))), MistakenRow(b, table, n);
    e := Column(n, Some(table.name));
    MistakenFact(b, table, n);
  }

  /**
   * An accepted partial transformation never falls off the end: on a row of its domain no CASE and
   * no mapping without ELSE, at any depth, runs out of branches.
   */
  lemma PartialSound(c: Context, domain: Ast, e: Ast, n: Ast)
    requires CoverageProven(domain, e) && Eval(c, domain) == Ok(Bool(true))
    requires n in Nodes(e) && (n.Case? ==> n.whens != [])
    ensures !FallsThrough(c, n)
  {
    if PartialCoverage(n).Some? {
      ImpliesSound(c, domain, PartialCoverage(n).value);
      CoverageHolds(c, n);
    }
  }
}
