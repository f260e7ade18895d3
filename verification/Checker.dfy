/** Type and nullability inference for data expressions, and its soundness over SQL rows. */
module Checker {
  import opened Options
  import opened Expressions
  import opened Implication

  datatype Info = Info(family: Family, nullable: bool)

  /** What inference knows: the columns by reference, the bound parameters, and the domain. */
  datatype Types = Types(columns: map<string, Info>, parameters: map<string, Value>, domain: Option<Ast>)

  function Reference(table: Option<string>, name: string): string {
    if table.Some? then table.value + "." + name else name
  }

  /** The column references a domain forces to be non-null. */
  function DomainNonNull(e: Ast): set<string> {
    match e
    case And(l, r) => DomainNonNull(l) + DomainNonNull(r)
    case Is(true, Column(name, table), Literal(Null)) => {name, Reference(table, name)}
    case _ => {}
  }

  function NonNull(domain: Option<Ast>): set<string> {
    if domain.Some? then DomainNonNull(domain.value) else {}
  }

  /** The common family of several, ignoring NULL; integers widen to numerics. */
  function MergeFamilies(families: set<Family>): Option<Family> {
    var values := families - {NullFamily};
    if values == {} then Some(NullFamily)
    else if values <= {IntegerFamily, NumericFamily} then
      Some(if NumericFamily in values then NumericFamily else IntegerFamily)
    else if exists f :: f in values && values == {f} then
      var f :| f in values && values == {f};
      Some(f)
    else None
  }

  function LiteralInfo(v: Value): Info {
    match v
    case Null => Info(NullFamily, true)
    case Int(_) => Info(IntegerFamily, false)
    case Num(_) => Info(NumericFamily, false)
    case Text(_) => Info(TextFamily, false)
    case Bool(_) => Info(BooleanFamily, false)
    case Date(_) => Info(DateFamily, false)
    case Datetime(_) => Info(DatetimeFamily, false)
    case Time(_) => Info(TimeFamily, false)
    case Json(_) => Info(JsonFamily, false)
    case Binary(_) => Info(BinaryFamily, false)
  }

  predicate NumericInfo(i: Info) {
    i.family == IntegerFamily || i.family == NumericFamily
  }

  function Families(infos: seq<Info>): (r: set<Family>)
    ensures forall i :: 0 <= i < |infos| ==> infos[i].family in r
  {
    set i: Info | i in infos :: i.family
  }

  predicate AnyNullable(infos: seq<Info>) {
    exists i :: 0 <= i < |infos| && infos[i].nullable
  }

  predicate AllNullable(infos: seq<Info>) {
    forall i :: 0 <= i < |infos| ==> infos[i].nullable
  }

  function Merged(families: set<Family>, nullable: bool): Option<Info> {
    match MergeFamilies(families)
    case None => None
    case Some(f) => Some(Info(f, nullable))
  }

  /** Whether a CASE or mapping always takes a branch on rows of the domain. */
  predicate IsComplete(domain: Option<Ast>, e: Ast)
    requires e.Case? || e.Mapping?
  {
    e.otherwise.Some? || (domain.Some? && PartialCoverage(e).Some? && Implies(domain.value, PartialCoverage(e).value))
  }

  function InferFunction(name: FunctionName, infos: seq<Info>): Option<Info> {
    match name
    case Lower | Upper | Trim | Concat =>
      if exists i :: 0 <= i < |infos| && infos[i].family != TextFamily then None
      else Some(Info(TextFamily, AnyNullable(infos)))
    case JsonExtract =>
      if |infos| < 2 || infos[0].family !in {JsonFamily, TextFamily} || infos[1].family != TextFamily then None
      else Some(Info(TextFamily, true))
    case SplitPart =>
      if |infos| < 3 || infos[0].family != TextFamily || infos[1].family != TextFamily || infos[2].family != IntegerFamily
      then None
      else Some(Info(TextFamily, infos[0].nullable))
    case Coalesce => Merged(Families(infos), AllNullable(infos))
    case DateTrunc =>
      if |infos| < 2 || infos[1].family !in {DateFamily, DatetimeFamily} then None
      else Some(Info(DatetimeFamily, infos[1].nullable))
  }

  /** The family and nullability of an expression, or None where the checker reports an error. */
  function Infer(t: Types, e: Ast): Option<Info>
    decreases e, 1
  {
    match e
    case Column(name, table) =>
      var reference := Reference(table, name);
      if reference !in t.columns then None
      else
        var info := t.columns[reference];
        Some(Info(info.family, info.nullable && reference !in NonNull(t.domain) && name !in NonNull(t.domain)))
    case Literal(v) => Some(LiteralInfo(v))
    case Parameter(name, declared) =>
      if name !in t.parameters then None
      else
        var v := t.parameters[name];
        Some(Info(if declared.Some? then declared.value else LiteralInfo(v).family, v.Null?))
    case Cast(a, target) =>
      (match Infer(t, a) case None => None case Some(i) => Some(Info(target, i.nullable)))
    case Function(name, args) =>
      (match InferAll(t, args) case None => None case Some(infos) => InferFunction(name, infos))
    case Arith(_, l, r) =>
      (match (Infer(t, l), Infer(t, r))
       case (Some(i), Some(j)) =>
         if NumericInfo(i) && NumericInfo(j) then Merged({i.family, j.family}, i.nullable || j.nullable) else None
       case _ => None)
    case Compare(_, l, r) =>
      (match (Infer(t, l), Infer(t, r))
       case (Some(i), Some(j)) =>
         if MergeFamilies({i.family, j.family}).Some? then Some(Info(BooleanFamily, i.nullable || j.nullable)) else None
       case _ => None)
    case And(l, r) => InferLogic(Infer(t, l), Infer(t, r))
    case Or(l, r) => InferLogic(Infer(t, l), Infer(t, r))
    case Not(a) =>
      (match Infer(t, a) case None => None case Some(i) => if i.family == BooleanFamily then Some(i) else None)
    case Neg(a) =>
      (match Infer(t, a) case None => None case Some(i) => if NumericInfo(i) then Some(i) else None)
    case Is(_, l, r) =>
      if Infer(t, l).Some? && Infer(t, r).Some? then Some(Info(BooleanFamily, false)) else None
    case In(source, values) =>
      (match (Infer(t, source), InferAll(t, values))
       case (Some(i), Some(infos)) =>
         if MergeFamilies({i.family} + Families(infos)).Some?
         then Some(Info(BooleanFamily, i.nullable || AnyNullable(infos))) else None
       case _ => None)
    case Case(whens, otherwise) =>
      (match (InferBranches(t, whens), InferOption(t, otherwise))
       case (Some(branches), Some(last)) =>
         if exists i :: 0 <= i < |branches| && branches[i].0.family != BooleanFamily then None
         else
           var results := Results(branches) + last;
           Merged(Families(results), !IsComplete(t.domain, e) || AnyNullable(results))
       case _ => None)
    case Mapping(source, entries, otherwise) =>
      (match (Infer(t, source), InferBranches(t, entries), InferOption(t, otherwise))
       case (Some(i), Some(branches), Some(last)) =>
         if MergeFamilies({i.family} + Families(Conditions(branches))).None? then None
         else
           var results := Results(branches) + last;
           Merged(Families(results), !IsComplete(t.domain, e) || AnyNullable(results))
       case _ => None)
  }

  function InferLogic(l: Option<Info>, r: Option<Info>): Option<Info> {
    match (l, r)
    case (Some(i), Some(j)) =>
      if i.family == BooleanFamily && j.family == BooleanFamily
      then Some(Info(BooleanFamily, i.nullable || j.nullable)) else None
    case _ => None
  }

  function InferAll(t: Types, es: seq<Ast>): (r: Option<seq<Info>>)
    ensures r.Some? ==> |r.value| == |es| && forall i :: 0 <= i < |es| ==> Infer(t, es[i]) == Some(r.value[i])
    decreases es, 0
  {
    if es == [] then Some([])
    else
      match (Infer(t, es[0]), InferAll(t, es[1..]))
      case (Some(i), Some(rest)) => Some([i] + rest)
      case _ => None
  }

  /** The families of the conditions and of the results of each branch. */
  function InferBranches(t: Types, branches: seq<Branch>): (r: Option<seq<(Info, Info)>>)
    ensures r.Some? ==> |r.value| == |branches|
    decreases branches, 0
  {
    if branches == [] then Some([])
    else
      var first := branches[0];
      assert first.when < first && first.then_ < first;
      match (Infer(t, first.when), Infer(t, first.then_), InferBranches(t, branches[1..]))
      case (Some(i), Some(j), Some(rest)) => Some([(i, j)] + rest)
      case _ => None
  }

  function InferOption(t: Types, o: Option<Ast>): (r: Option<seq<Info>>)
    ensures r.Some? ==> |r.value| == if o.Some? then 1 else 0
    ensures r.Some? && o.Some? ==> Infer(t, o.value) == Some(r.value[0])
    decreases o, 0
  {
    if o.None? then Some([]) else match Infer(t, o.value) case None => None case Some(i) => Some([i])
  }

  function Results(branches: seq<(Info, Info)>): (r: seq<Info>)
    ensures |r| == |branches| && forall i :: 0 <= i < |r| ==> r[i] == branches[i].1
  {
    seq(|branches|, i requires 0 <= i < |branches| => branches[i].1)
  }

  function Conditions(branches: seq<(Info, Info)>): (r: seq<Info>)
    ensures |r| == |branches| && forall i :: 0 <= i < |r| ==> r[i] == branches[i].0
  {
    seq(|branches|, i requires 0 <= i < |branches| => branches[i].0)
  }

  predicate Compatible(source: Family, target: Family) {
    source == target || (source == IntegerFamily && target == NumericFamily)
  }

  /** An expression may be assigned to a column of the given family and nullability. */
  predicate ValidAssignment(t: Types, e: Ast, target: Family, nullable: bool) {
    match Infer(t, e)
    case None => false
    case Some(info) =>
      && (if info.family == NullFamily then nullable else Compatible(info.family, target))
      && (info.nullable ==> nullable)
  }
}
