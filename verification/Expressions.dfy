/** The expression language of data declarations, and what an expression evaluates to on a row. */
module Expressions {
  import opened Options

  datatype Family =
    | IntegerFamily | NumericFamily | TextFamily | BooleanFamily | DateFamily | DatetimeFamily
    | TimeFamily | JsonFamily | BinaryFamily | NullFamily

  /** A declared type; only the literal NULL is of no such family. */
  type TypeFamily = f: Family | f != NullFamily witness IntegerFamily

  datatype Value =
    | Null | Int(int) | Num(real) | Text(string) | Bool(bool) | Date(int) | Datetime(int) | Time(int)
    | Json(string) | Binary(seq<bv8>)

  datatype Arithmetic = Add | Sub | Mul | Div | Mod

  datatype Comparison = Eq | Ne | Lt | Le | Gt | Ge

  datatype FunctionName = Lower | Upper | Trim | Concat | Coalesce | DateTrunc | JsonExtract | SplitPart

  datatype Branch = Branch(when: Ast, then_: Ast)

  datatype Ast =
    | Column(name: string, table: Option<string>)
    | Literal(literal: Value)
    | Parameter(parameter: string, declared: Option<TypeFamily>)
    | Arith(arith: Arithmetic, left: Ast, right: Ast)
    | Compare(comparison: Comparison, left: Ast, right: Ast)
    | And(left: Ast, right: Ast)
    | Or(left: Ast, right: Ast)
    | Not(operand: Ast)
    | Neg(operand: Ast)
    | Is(negated: bool, left: Ast, right: Ast)
    | In(source: Ast, values: seq<Ast>)
    | Function(function_: FunctionName, args: seq<Ast>)
    | Cast(operand: Ast, target: TypeFamily)
    | Case(whens: seq<Branch>, otherwise: Option<Ast>)
    | Mapping(source: Ast, entries: seq<Branch>, otherwise: Option<Ast>)

  /** A failed evaluation. Only `Mismatch` is a type error; the others depend on the data. */
  datatype Failure = DivisionByZero | CastFailed | Mismatch

  datatype Outcome = Ok(value: Value) | Err(failure: Failure)

  /** What is left to the database: string functions, conversions, and the order of each type. */
  datatype Backend = Backend(
    text: (FunctionName, string) -> string,
    split: (string, string, int) -> string,
    extract: (string, string) -> Option<string>,
    trunc: (string, int, string) -> int,
    convert: (Value, Family) -> Option<Value>,
    less: (Value, Value) -> bool)

  datatype Context = Context(backend: Backend, row: map<string, Value>, parameters: map<string, Value>)

  /** A value belongs to a family; an integer is also numeric, and NULL belongs to every family. */
  predicate Fits(v: Value, family: Family) {
    match v
    case Null => true
    case Int(_) => family == IntegerFamily || family == NumericFamily
    case Num(_) => family == NumericFamily
    case Text(_) => family == TextFamily
    case Bool(_) => family == BooleanFamily
    case Date(_) => family == DateFamily
    case Datetime(_) => family == DatetimeFamily
    case Time(_) => family == TimeFamily
    case Json(_) => family == JsonFamily
    case Binary(_) => family == BinaryFamily
  }

  predicate Number(v: Value) {
    v.Int? || v.Num?
  }

  function AsReal(v: Value): real
    requires Number(v)
  {
    match v
    case Int(n) => n as real
    case Num(r) => r
  }

  function Abs(n: int): nat {
    if n < 0 then -n else n
  }

  /** Integer division in SQL truncates toward zero. */
  function Quotient(a: int, b: int): int
    requires b != 0
  {
    if (a < 0) == (b < 0) then Abs(a) / Abs(b) else -(Abs(a) / Abs(b))
  }

  function Calculate(op: Arithmetic, v: Value, w: Value): Outcome {
    if !(v.Null? || Number(v)) || !(w.Null? || Number(w)) then Err(Mismatch)
    else if v.Null? || w.Null? then Ok(Null)
    else if v.Int? && w.Int? then
      match (v, w) case (Int(a), Int(b)) =>
        match op
        case Add => Ok(Int(a + b))
        case Sub => Ok(Int(a - b))
        case Mul => Ok(Int(a * b))
        case Div => if b == 0 then Err(DivisionByZero) else Ok(Int(Quotient(a, b)))
        case Mod => if b == 0 then Err(DivisionByZero) else Ok(Int(a - b * Quotient(a, b)))
    else
      var (a, b) := (AsReal(v), AsReal(w));
      match op
      case Add => Ok(Num(a + b))
      case Sub => Ok(Num(a - b))
      case Mul => Ok(Num(a * b))
      case Div => if b == 0.0 then Err(DivisionByZero) else Ok(Num(a / b))
      case Mod =>
        if b == 0.0 then Err(DivisionByZero)
        else
          var q := a / b;
          Ok(Num(a - b * (if q < 0.0 then -((-q).Floor) else q.Floor) as real))
  }

  predicate Comparable(v: Value, w: Value) {
    || v.Null? || w.Null? || (Number(v) && Number(w))
    || (v.Text? && w.Text?) || (v.Bool? && w.Bool?) || (v.Date? && w.Date?) || (v.Datetime? && w.Datetime?)
    || (v.Time? && w.Time?) || (v.Json? && w.Json?) || (v.Binary? && w.Binary?)
  }

  predicate Same(v: Value, w: Value) {
    if Number(v) && Number(w) then AsReal(v) == AsReal(w) else v == w
  }

  /** Comparison: unknown as soon as one side is NULL. */
  function CompareValues(b: Backend, op: Comparison, v: Value, w: Value): Outcome {
    if !Comparable(v, w) then Err(Mismatch)
    else if v.Null? || w.Null? then Ok(Null)
    else
      match op
      case Eq => Ok(Bool(Same(v, w)))
      case Ne => Ok(Bool(!Same(v, w)))
      case Lt => Ok(Bool(b.less(v, w)))
      case Le => Ok(Bool(b.less(v, w) || Same(v, w)))
      case Gt => Ok(Bool(b.less(w, v)))
      case Ge => Ok(Bool(b.less(w, v) || Same(v, w)))
  }

  predicate Truth(v: Value) {
    v.Null? || v.Bool?
  }

  /** Conjunction in three-valued logic. */
  function Both(v: Outcome, w: Outcome): Outcome {
    if v.Err? then v else if w.Err? then w
    else if !Truth(v.value) || !Truth(w.value) then Err(Mismatch)
    else if v.value == Bool(false) || w.value == Bool(false) then Ok(Bool(false))
    else if v.value.Null? || w.value.Null? then Ok(Null)
    else Ok(Bool(true))
  }

  /** Disjunction in three-valued logic. */
  function Either(v: Outcome, w: Outcome): Outcome {
    if v.Err? then v else if w.Err? then w
    else if !Truth(v.value) || !Truth(w.value) then Err(Mismatch)
    else if v.value == Bool(true) || w.value == Bool(true) then Ok(Bool(true))
    else if v.value.Null? || w.value.Null? then Ok(Null)
    else Ok(Bool(false))
  }

  /** Membership: a disjunction of equalities, false on the empty list. */
  function Member(b: Backend, v: Value, items: seq<Outcome>): Outcome {
    if items == [] then Ok(Bool(false))
    else if items[0].Err? then items[0]
    else Either(CompareValues(b, Eq, v, items[0].value), Member(b, v, items[1..]))
  }

  predicate AllOk(items: seq<Outcome>) {
    forall i :: 0 <= i < |items| ==> items[i].Ok?
  }

  predicate AnyNull(items: seq<Outcome>)
    requires AllOk(items)
  {
    exists i :: 0 <= i < |items| && items[i].value.Null?
  }

  function FirstNonNull(items: seq<Outcome>): Outcome {
    if items == [] then Ok(Null)
    else if items[0].Err? || !items[0].value.Null? then items[0]
    else FirstNonNull(items[1..])
  }

  function JoinTexts(items: seq<Outcome>): string
    requires forall i :: 0 <= i < |items| ==> items[i].Ok? && items[i].value.Text?
  {
    if items == [] then "" else match items[0].value case Text(t) => t + JoinTexts(items[1..])
  }

  function FirstError(items: seq<Outcome>): Outcome
    requires !AllOk(items)
  {
    if items[0].Err? then items[0]
    else
      assert exists i :: 0 < i < |items| && items[i].Err? && items[1..][i - 1].Err?;
      FirstError(items[1..])
  }

  function ApplyText(b: Backend, name: FunctionName, items: seq<Outcome>): Outcome
    requires AllOk(items)
  {
    if |items| != 1 then Err(Mismatch)
    else
      match items[0].value
      case Text(t) => Ok(Text(b.text(name, t)))
      case Null => Ok(Null)
      case _ => Err(Mismatch)
  }

  /** The functions of the language; all but COALESCE are strict in errors and in NULL. */
  function Apply(b: Backend, name: FunctionName, items: seq<Outcome>): Outcome {
    if name == Coalesce then FirstNonNull(items)
    else if !AllOk(items) then FirstError(items)
    else
      match name
      case Lower | Upper | Trim => ApplyText(b, name, items)
      case Concat =>
        if exists i :: 0 <= i < |items| && !items[i].value.Text? && !items[i].value.Null? then Err(Mismatch)
        else if AnyNull(items) then Ok(Null)
        else Ok(Text(JoinTexts(items)))
      case JsonExtract =>
        if |items| != 2 then Err(Mismatch)
        else
          (match (items[0].value, items[1].value)
           case (Text(s), Text(path)) => Extracted(b.extract(s, path))
           case (Json(s), Text(path)) => Extracted(b.extract(s, path))
           case (Null, Text(_)) => Ok(Null)
           case _ => Err(Mismatch))
      case SplitPart =>
        if |items| != 3 then Err(Mismatch)
        else
          (match (items[0].value, items[1].value, items[2].value)
           case (Text(s), Text(delimiter), Int(n)) => Ok(Text(b.split(s, delimiter, n)))
           case (Null, Text(_), Int(_)) => Ok(Null)
           case _ => Err(Mismatch))
      case DateTrunc =>
        if |items| != 3 then Err(Mismatch)
        else
          (match (items[0].value, items[1].value, items[2].value)
           case (Text(unit), Date(d), Text(zone)) => Ok(Datetime(b.trunc(unit, d, zone)))
           case (Text(unit), Datetime(d), Text(zone)) => Ok(Datetime(b.trunc(unit, d, zone)))
           case (Text(_), Null, Text(_)) => Ok(Null)
           case _ => Err(Mismatch))
      case Coalesce => FirstNonNull(items)
  }

  function Extracted(found: Option<string>): Outcome {
    match found
    case None => Ok(Null)
    case Some(s) => Ok(Text(s))
  }

  /** A conversion keeps NULL, and otherwise yields a value of its target family or fails. */
  function Convert(b: Backend, v: Value, target: Family): Outcome {
    if v.Null? then Ok(Null)
    else
      match b.convert(v, target)
      case Some(w) => if !w.Null? && Fits(w, target) then Ok(w) else Err(CastFailed)
      case None => Err(CastFailed)
  }

  /** The value of an expression on a row. */
  function Eval(c: Context, e: Ast): Outcome
    decreases e, 1
  {
    match e
    case Column(name, _) => if name in c.row then Ok(c.row[name]) else Err(Mismatch)
    case Literal(v) => Ok(v)
    case Parameter(name, _) => if name in c.parameters then Ok(c.parameters[name]) else Err(Mismatch)
    case Arith(op, l, r) =>
      var (v, w) := (Eval(c, l), Eval(c, r));
      if v.Err? then v else if w.Err? then w else Calculate(op, v.value, w.value)
    case Compare(op, l, r) =>
      var (v, w) := (Eval(c, l), Eval(c, r));
      if v.Err? then v else if w.Err? then w else CompareValues(c.backend, op, v.value, w.value)
    case And(l, r) => Both(Eval(c, l), Eval(c, r))
    case Or(l, r) => Either(Eval(c, l), Eval(c, r))
    case Not(a) =>
      var v := Eval(c, a);
      if v.Err? then v
      else (match v.value case Null => Ok(Null) case Bool(x) => Ok(Bool(!x)) case _ => Err(Mismatch))
    case Neg(a) =>
      var v := Eval(c, a);
      if v.Err? then v
      else (match v.value case Null => Ok(Null) case Int(n) => Ok(Int(-n)) case Num(r) => Ok(Num(-r)) case _ => Err(Mismatch))
    case Is(negated, l, r) =>
      var (v, w) := (Eval(c, l), Eval(c, r));
      if v.Err? then v else if w.Err? then w else Ok(Bool(Same(v.value, w.value) != negated))
    case In(source, values) =>
      var v := Eval(c, source);
      if v.Err? then v else Member(c.backend, v.value, EvalAll(c, values))
    case Function(name, args) => Apply(c.backend, name, EvalAll(c, args))
    case Cast(a, target) =>
      var v := Eval(c, a);
      if v.Err? then v else Convert(c.backend, v.value, target)
    case Case(whens, otherwise) =>
      (match EvalCase(c, whens)
       case Some(taken) => taken
       case None => if otherwise.Some? then Eval(c, otherwise.value) else Ok(Null))
    case Mapping(source, entries, otherwise) =>
      var v := Eval(c, source);
      if v.Err? then v
      else
        (match EvalMapping(c, v.value, entries)
         case Some(taken) => taken
         case None => if otherwise.Some? then Eval(c, otherwise.value) else Ok(Null))
  }

  function EvalAll(c: Context, es: seq<Ast>): (r: seq<Outcome>)
    ensures |r| == |es|
    ensures forall i :: 0 <= i < |es| ==> r[i] == Eval(c, es[i])
    decreases es, 0
  {
    if es == [] then [] else [Eval(c, es[0])] + EvalAll(c, es[1..])
  }

  /** The first branch whose condition is TRUE, or a condition that fails; None when none is TRUE. */
  function EvalCase(c: Context, whens: seq<Branch>): Option<Outcome>
    decreases whens, 0
  {
    if whens == [] then None
    else
      var first := whens[0];
      assert first.when < first && first.then_ < first;
      var condition := Eval(c, first.when);
      if condition.Err? then Some(condition)
      else if !Truth(condition.value) then Some(Err(Mismatch))
      else if condition.value == Bool(true) then Some(Eval(c, first.then_))
      else EvalCase(c, whens[1..])
  }

  /** The first entry whose key equals the source. */
  function EvalMapping(c: Context, v: Value, entries: seq<Branch>): Option<Outcome>
    decreases entries, 0
  {
    if entries == [] then None
    else
      var first := entries[0];
      assert first.when < first && first.then_ < first;
      var key := Eval(c, first.when);
      if key.Err? then Some(key)
      else
        var equal := CompareValues(c.backend, Eq, v, key.value);
        if equal.Err? then Some(equal)
        else if equal.value == Bool(true) then Some(Eval(c, first.then_))
        else EvalMapping(c, v, entries[1..])
  }
}
