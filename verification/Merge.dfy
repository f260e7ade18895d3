/** Merging several historical tables: grouped contributions, ranked winners and aggregates. */
module Merges {
  import opened Keys
  import opened Options

  type Group(==, !new)

  /**
   * One row of the union of all sources: its grouping key, the priority of its source followed by its
   * encoded identity, and the value it contributes to one merged field.
   */
  datatype Contribution = Contribution(group: Group, rank: Key, value: Option<int>)

  /** Permutations share their first element, wherever it stands, and are permutations without it. */
  lemma Extract<T>(a: seq<T>, b: seq<T>) returns (i: nat)
    requires a != [] && multiset(a) == multiset(b)
    ensures i < |b| && b[i] == a[0]
    ensures multiset(a[1..]) == multiset(b[..i] + b[i + 1..])
  {
    assert a[0] in multiset(b);
    i :| 0 <= i < |b| && b[i] == a[0];
    assert a == [a[0]] + a[1..] && b == b[..i] + [b[i]] + b[i + 1..];
    assert multiset(b[..i] + b[i + 1..]) == multiset(b) - multiset{a[0]};
  }

  function OfGroup(rows: seq<Contribution>, g: Group): seq<Contribution> {
    if rows == [] then []
    else (if rows[0].group == g then [rows[0]] else []) + OfGroup(rows[1..], g)
  }

  function Values(rows: seq<Contribution>): (values: seq<Option<int>>)
    ensures |values| == |rows|
    ensures forall i :: 0 <= i < |rows| ==> values[i] == rows[i].value
  {
    seq(|rows|, i requires 0 <= i < |rows| => rows[i].value)
  }

  lemma {:induction false} OfGroupPermutes(a: seq<Contribution>, b: seq<Contribution>, g: Group)
    requires multiset(a) == multiset(b)
    ensures multiset(OfGroup(a, g)) == multiset(OfGroup(b, g))
  {
    GroupMultiset(a, g);
    GroupMultiset(b, g);
  }

  lemma {:induction false} GroupMultiset(a: seq<Contribution>, g: Group)
    ensures forall c :: multiset(OfGroup(a, g))[c] == if c.group == g then multiset(a)[c] else 0
  {
    if a != [] {
      GroupMultiset(a[1..], g);
      assert a == [a[0]] + a[1..];
    }
  }

  // ---------- aggregates ----------

  datatype Aggregate = Sum | Min | Max

  /** How an aggregate combines two values; NULL contributes nothing. */
  function Combine(op: Aggregate, x: Option<int>, y: Option<int>): Option<int> {
    if x.None? then y
    else if y.None? then x
    else match op
      case Sum => Some(x.value + y.value)
      case Min => Some(if x.value < y.value then x.value else y.value)
      case Max => Some(if x.value > y.value then x.value else y.value)
  }

  /** The aggregate over rows in the order the database meets them; NULL when all values are. */
  function Fold(op: Aggregate, values: seq<Option<int>>): Option<int> {
    if values == [] then None else Combine(op, values[0], Fold(op, values[1..]))
  }

  function Count(values: seq<Option<int>>): nat {
    if values == [] then 0 else (if values[0].Some? then 1 else 0) + Count(values[1..])
  }

  lemma {:induction false} FoldMove(op: Aggregate, values: seq<Option<int>>, i: nat)
    requires i < |values|
    ensures Fold(op, values) == Combine(op, values[i], Fold(op, values[..i] + values[i + 1..]))
    ensures Count(values) == (if values[i].Some? then 1 else 0) + Count(values[..i] + values[i + 1..])
  {
    if i == 0 {
      assert values[..0] + values[1..] == values[1..];
    } else {
      FoldMove(op, values[1..], i - 1);
      var rest := values[..i] + values[i + 1..];
      assert rest[1..] == values[1..][..i - 1] + values[1..][i..];
    }
  }

  lemma {:induction false} FoldPermutes(op: Aggregate, a: seq<Option<int>>, b: seq<Option<int>>)
    requires multiset(a) == multiset(b)
    ensures Fold(op, a) == Fold(op, b) && Count(a) == Count(b)
  {
    if a == [] {
      assert |b| == |multiset(b)|;
    } else {
      var i := Extract(a, b);
      var rest := b[..i] + b[i + 1..];
      FoldPermutes(op, a[1..], rest);
      FoldMove(op, b, i);
    }
  }

  lemma ValuesMove(rows: seq<Contribution>, i: nat)
    requires i < |rows|
    ensures multiset(Values(rows)) == multiset{rows[i].value} + multiset(Values(rows[..i] + rows[i + 1..]))
  {
    var v, front, back := rows[i].value, Values(rows)[..i], Values(rows)[i + 1..];
    assert Values(rows) == front + [v] + back;
    assert Values(rows[..i] + rows[i + 1..]) == front + back;
  }

  lemma ValuesHead(rows: seq<Contribution>)
    requires rows != []
    ensures multiset(Values(rows)) == multiset{rows[0].value} + multiset(Values(rows[1..]))
  {
    assert Values(rows) == [rows[0].value] + Values(rows[1..]);
  }

  lemma {:induction false} ValuesPermute(a: seq<Contribution>, b: seq<Contribution>)
    requires multiset(a) == multiset(b)
    ensures multiset(Values(a)) == multiset(Values(b))
  {
    if a == [] {
      assert |b| == |multiset(b)|;
    } else {
      hide Values;
      var i := Extract(a, b);
      var rest := b[..i] + b[i + 1..];
      ValuesPermute(a[1..], rest);
      ValuesHead(a);
      ValuesMove(b, i);
    }
  }

  // ---------- the guards ----------

  /** No group holds two contributions of the same priority and identity. */
  ghost predicate UniqueRanks(rows: seq<Contribution>) {
    forall i, j :: 0 <= i < j < |rows| && rows[i].group == rows[j].group ==> rows[i].rank != rows[j].rank
  }

  ghost function Present(values: seq<Option<int>>): set<int> {
    set i | 0 <= i < |values| && values[i].Some? :: values[i].value
  }

  /** COUNT(DISTINCT v) <= 1 and not 0 < COUNT(v) < COUNT(*). */
  ghost predicate EqualGuard(values: seq<Option<int>>) {
    |Present(values)| <= 1 && !(0 < Count(values) < |values|)
  }

  ghost predicate AllEqual(values: seq<Option<int>>) {
    forall i, j :: 0 <= i < |values| && 0 <= j < |values| ==> values[i] == values[j]
  }

  lemma {:induction false} CountExtremes(values: seq<Option<int>>)
    ensures Count(values) <= |values|
    ensures Count(values) == 0 <==> forall i :: 0 <= i < |values| ==> values[i].None?
    ensures Count(values) == |values| <==> forall i :: 0 <= i < |values| ==> values[i].Some?
  {
    if values != [] {
      CountExtremes(values[1..]);
      assert forall i :: 0 < i < |values| ==> values[i] == values[1..][i - 1];
      assert forall i :: 0 <= i < |values| - 1 ==> values[1..][i] == values[i + 1];
    }
  }

  lemma AtMostOne(s: set<int>, x: int, y: int)
    requires |s| <= 1 && x in s && y in s
    ensures x == y
  {
    assert |s - {x}| == |s| - 1;
    assert s - {x} == {};
    assert y !in s - {x};
  }

  /** The guard passes exactly when every contribution of the group is the same, NULL included. */
  lemma EqualGuardIff(values: seq<Option<int>>)
    ensures EqualGuard(values) <==> AllEqual(values)
  {
    CountExtremes(values);
    var present := Present(values);
    if EqualGuard(values) {
      forall i, j | 0 <= i < |values| && 0 <= j < |values| ensures values[i] == values[j] {
        if values[i].Some? && values[j].Some? {
          AtMostOne(present, values[i].value, values[j].value);
        }
      }
    }
    if AllEqual(values) {
      if values != [] && values[0].Some? {
        assert present == {values[0].value};
      } else {
        assert present == {};
      }
    }
  }

  /** Under it the field has the value of each contribution. */
  lemma {:induction false} EqualIsEachValue(values: seq<Option<int>>)
    requires EqualGuard(values)
    ensures forall i :: 0 <= i < |values| ==> Fold(Min, values) == values[i]
  {
    EqualGuardIff(values);
    EqualFold(values);
  }

  lemma {:induction false} EqualFold(values: seq<Option<int>>)
    requires AllEqual(values)
    ensures values != [] ==> Fold(Min, values) == values[0]
  {
    if |values| > 1 {
      EqualFold(values[1..]);
    }
  }

  // ---------- the winner ----------

  /** A ranking the database may choose: the group's rows in ascending order of priority and identity. */
  ghost predicate IsRanking(ranking: seq<Contribution>, rows: seq<Contribution>, g: Group, nullsFirst: bool) {
    && multiset(ranking) == multiset(OfGroup(rows, g))
    && forall i, j :: 0 <= i < j < |ranking| ==> Sorts(ranking[i].rank, ranking[j].rank, nullsFirst)
  }

  /** MAX(CASE WHEN rank = 1 THEN value END) over a ranking. */
  function WinnerOf(ranking: seq<Contribution>): Option<int> {
    Fold(Max, OnlyFirst(ranking, 0))
  }

  function OnlyFirst(ranking: seq<Contribution>, from: nat): (values: seq<Option<int>>)
    requires from <= |ranking|
    ensures |values| == |ranking| - from
    decreases |ranking| - from
  {
    if from == |ranking| then []
    else [if from == 0 then ranking[from].value else None] + OnlyFirst(ranking, from + 1)
  }

  lemma {:induction false} OthersAreNull(ranking: seq<Contribution>, from: nat)
    requires 0 < from <= |ranking|
    ensures Fold(Max, OnlyFirst(ranking, from)) == None
    decreases |ranking| - from
  {
    if from < |ranking| {
      OthersAreNull(ranking, from + 1);
      assert OnlyFirst(ranking, from)[1..] == OnlyFirst(ranking, from + 1);
    }
  }

  lemma WinnerIsFirst(ranking: seq<Contribution>)
    requires ranking != []
    ensures WinnerOf(ranking) == ranking[0].value
  {
    OthersAreNull(ranking, 1);
    assert OnlyFirst(ranking, 0)[1..] == OnlyFirst(ranking, 1);
  }

  /** `c` is of the group, and every other row of the group has a strictly greater priority or identity. */
  ghost predicate UniqueLeast(rows: seq<Contribution>, g: Group, c: Contribution, nullsFirst: bool) {
    && c in OfGroup(rows, g)
    && forall d :: d in OfGroup(rows, g) && d != c ==> Sorts(c.rank, d.rank, nullsFirst) && c.rank != d.rank
  }

  lemma {:induction false} OfGroupElements(rows: seq<Contribution>, g: Group)
    ensures forall c :: c in OfGroup(rows, g) <==> c in rows && c.group == g
  {
    if rows != [] {
      OfGroupElements(rows[1..], g);
      assert rows == [rows[0]] + rows[1..];
    }
  }

  lemma DistinctRanks(rows: seq<Contribution>, c: Contribution, d: Contribution)
    requires UniqueRanks(rows) && c in rows && d in rows && c != d && c.group == d.group
    ensures c.rank != d.rank
  {
    var i :| 0 <= i < |rows| && rows[i] == c;
    var j :| 0 <= j < |rows| && rows[j] == d;
    if j < i {
      assert rows[j].rank != rows[i].rank;
    }
  }

  /** Whatever ranking the database chooses, its first row is the one least row of the group. */
  lemma RankingStartsWithLeast(ranking: seq<Contribution>, rows: seq<Contribution>, g: Group, nullsFirst: bool)
    requires UniqueRanks(rows) && IsRanking(ranking, rows, g, nullsFirst) && ranking != []
    ensures UniqueLeast(rows, g, ranking[0], nullsFirst)
  {
    OfGroupElements(rows, g);
    var c := ranking[0];
    assert c in multiset(ranking);
    forall d | d in OfGroup(rows, g) && d != c ensures Sorts(c.rank, d.rank, nullsFirst) && c.rank != d.rank {
      assert d in multiset(OfGroup(rows, g)) && d in multiset(ranking);
      var j :| 0 <= j < |ranking| && ranking[j] == d;
      DistinctRanks(rows, c, d);
    }
  }

  lemma LeastIsUnique(rows: seq<Contribution>, g: Group, c: Contribution, d: Contribution, nullsFirst: bool)
    requires UniqueLeast(rows, g, c, nullsFirst) && UniqueLeast(rows, g, d, nullsFirst)
    ensures c == d
  {
    if c != d {
      SortsAntisymmetric(c.rank, d.rank, nullsFirst);
    }
  }

  // ---------- the merged field ----------

  datatype Rule = Winner | RequireEqual | Total(op: Aggregate) | Counted

  /** The merged field of a group, given the ranking the database chose. */
  function Field(rule: Rule, rows: seq<Contribution>, g: Group, ranking: seq<Contribution>): Option<int> {
    var values := Values(OfGroup(rows, g));
    match rule
    case Winner => WinnerOf(ranking)
    case RequireEqual => Fold(Min, values)
    case Total(op) => Fold(op, values)
    case Counted => Some(Count(values))
  }

  // ---------- what the merged field is ----------

  /** `c` is a row of the group, and no other row of the group has its priority and identity or a lesser one. */
  ghost predicate Wins(rows: seq<Contribution>, g: Group, c: Contribution, nullsFirst: bool) {
    && c in rows && c.group == g
    && forall d :: d in rows && d.group == g && d != c ==> Sorts(c.rank, d.rank, nullsFirst) && c.rank != d.rank
  }

  /** Under `winner` it is the value of the group's row of least priority and identity, whatever that value is. */
  lemma WinnerField(rows: seq<Contribution>, g: Group, ranking: seq<Contribution>, nullsFirst: bool) returns (c: Contribution)
    requires UniqueRanks(rows) && IsRanking(ranking, rows, g, nullsFirst) && exists d :: d in rows && d.group == g
    ensures Wins(rows, g, c, nullsFirst) && Field(Winner, rows, g, ranking) == c.value
    ensures forall d :: Wins(rows, g, d, nullsFirst) ==> d == c
  {
    OfGroupElements(rows, g);
    var d :| d in rows && d.group == g;
    assert d in multiset(OfGroup(rows, g)) && d in multiset(ranking);
    c := ranking[0];
    RankingStartsWithLeast(ranking, rows, g, nullsFirst);
    WinnerIsFirst(ranking);
    forall e | Wins(rows, g, e, nullsFirst) ensures e == c {
      LeastIsUnique(rows, g, e, c, nullsFirst);
    }
  }

  /** Under `require_equal`, its guard passed, it is the value of every row of the group. */
  lemma EqualField(rows: seq<Contribution>, g: Group, ranking: seq<Contribution>, c: Contribution)
    requires EqualGuard(Values(OfGroup(rows, g))) && c in rows && c.group == g
    ensures Field(RequireEqual, rows, g, ranking) == c.value
  {
    var i := GroupIndex(rows, g, c);
    EqualIsEachValue(Values(OfGroup(rows, g)));
  }

  lemma GroupIndex(rows: seq<Contribution>, g: Group, c: Contribution) returns (i: nat)
    requires c in rows && c.group == g
    ensures i < |OfGroup(rows, g)| && OfGroup(rows, g)[i] == c && Values(OfGroup(rows, g))[i] == c.value
  {
    OfGroupElements(rows, g);
    i :| 0 <= i < |OfGroup(rows, g)| && OfGroup(rows, g)[i] == c;
  }

  lemma {:induction false} FoldBounds(op: Aggregate, values: seq<Option<int>>)
    requires op != Sum
    ensures Fold(op, values).Some? ==> Fold(op, values) in values
    ensures forall v :: v in values && v.Some? ==>
      Fold(op, values).Some? && if op == Min then Fold(op, values).value <= v.value else v.value <= Fold(op, values).value
  {
    if values != [] {
      FoldBounds(op, values[1..]);
      assert values == [values[0]] + values[1..];
    }
  }

  /** `min` and `max` are the value of a row of the group, and bound the value of every other. */
  lemma BoundField(op: Aggregate, rows: seq<Contribution>, g: Group, ranking: seq<Contribution>)
    requires op != Sum
    ensures
      var field := Field(Total(op), rows, g, ranking);
      && (field.Some? ==> exists c :: c in rows && c.group == g && c.value == field)
      && forall c :: c in rows && c.group == g && c.value.Some? ==>
           field.Some? && if op == Min then field.value <= c.value.value else c.value.value <= field.value
  {
    var values, field := Values(OfGroup(rows, g)), Field(Total(op), rows, g, ranking);
    OfGroupElements(rows, g);
    FoldBounds(op, values);
    if field.Some? {
      var i :| 0 <= i < |values| && values[i] == field;
      assert OfGroup(rows, g)[i] in OfGroup(rows, g) && OfGroup(rows, g)[i].value == field;
    }
    forall c | c in rows && c.group == g && c.value.Some?
      ensures field.Some? && if op == Min then field.value <= c.value.value else c.value.value <= field.value
    {
      var i := GroupIndex(rows, g, c);
      assert values[i] in values;
    }
  }

  /** Every aggregate is NULL exactly when all values of the group are. */
  lemma NullField(op: Aggregate, rows: seq<Contribution>, g: Group, ranking: seq<Contribution>)
    ensures Field(Total(op), rows, g, ranking).None? <==> forall c :: c in rows && c.group == g ==> c.value.None?
  {
    var values := Values(OfGroup(rows, g));
    OfGroupElements(rows, g);
    FoldNull(op, values);
    if Field(Total(op), rows, g, ranking).None? {
      forall c | c in rows && c.group == g ensures c.value.None? {
        var i := GroupIndex(rows, g, c);
      }
    } else {
      var i :| 0 <= i < |values| && values[i].Some?;
      assert OfGroup(rows, g)[i] in OfGroup(rows, g);
    }
  }

  lemma {:induction false} FoldNull(op: Aggregate, values: seq<Option<int>>)
    ensures Fold(op, values).None? <==> forall i :: 0 <= i < |values| ==> values[i].None?
  {
    if values != [] {
      FoldNull(op, values[1..]);
      assert forall i :: 0 < i < |values| ==> values[i] == values[1..][i - 1];
      assert forall i :: 0 <= i < |values| - 1 ==> values[1..][i] == values[i + 1];
    }
  }

  /** What a value adds to a sum. */
  function Amount(v: Option<int>): int {
    if v.Some? then v.value else 0
  }

  lemma OfGroupCons(rows: seq<Contribution>, g: Group)
    ensures OfGroup(rows, g) ==
      if rows == [] then [] else (if rows[0].group == g then [rows[0]] else []) + OfGroup(rows[1..], g)
  {
  }

  lemma {:induction false} OfGroupJoin(a: seq<Contribution>, b: seq<Contribution>, g: Group)
    ensures OfGroup(a + b, g) == OfGroup(a, g) + OfGroup(b, g)
  {
    hide OfGroup;
    OfGroupCons(a, g);
    OfGroupCons(a + b, g);
    if a == [] {
      assert a + b == b;
    } else {
      assert (a + b)[0] == a[0] && (a + b)[1..] == a[1..] + b;
      OfGroupJoin(a[1..], b, g);
    }
  }

  lemma {:induction false} FoldSumJoin(a: seq<Option<int>>, b: seq<Option<int>>)
    ensures Amount(Fold(Sum, a + b)) == Amount(Fold(Sum, a)) + Amount(Fold(Sum, b))
    ensures Count(a + b) == Count(a) + Count(b)
  {
    if a == [] {
      assert a + b == b;
    } else {
      assert (a + b)[1..] == a[1..] + b;
      FoldSumJoin(a[1..], b);
    }
  }

  /** `sum` and the count add up over any division of the rows, and of one row they are its value and whether it has one. */
  lemma AdditiveField(a: seq<Contribution>, b: seq<Contribution>, c: Contribution, g: Group, ranking: seq<Contribution>)
    ensures Amount(Field(Total(Sum), a + b, g, ranking)) ==
      Amount(Field(Total(Sum), a, g, ranking)) + Amount(Field(Total(Sum), b, g, ranking))
    ensures Amount(Field(Total(Sum), [c], g, ranking)) == if c.group == g then Amount(c.value) else 0
    ensures Field(Counted, a + b, g, ranking).value == Field(Counted, a, g, ranking).value + Field(Counted, b, g, ranking).value
    ensures Field(Counted, [c], g, ranking) == Some(if c.group == g && c.value.Some? then 1 else 0)
    ensures Field(Counted, [], g, ranking) == Some(0)
  {
    OfGroupJoin(a, b, g);
    FoldSumJoin(Values(OfGroup(a, g)), Values(OfGroup(b, g)));
    assert Values(OfGroup(a + b, g)) == Values(OfGroup(a, g)) + Values(OfGroup(b, g));
    assert OfGroup([c], g) == if c.group == g then [c] else [];
    assert Values([c]) == [c.value] && Values([]) == [];
    AggregateOne(c.value);
  }

  lemma AggregateOne(v: Option<int>)
    ensures Fold(Sum, [v]) == v && Count([v]) == if v.Some? then 1 else 0
  {
    assert [v][1..] == [];
    assert Fold(Sum, []) == None;
  }

  /** `count` is the number of rows of the group that have a value. */
  lemma {:induction false} CountedField(rows: seq<Contribution>, g: Group, ranking: seq<Contribution>)
    ensures Field(Counted, rows, g, ranking) == Some(|Valued(rows, g)|)
  {
    if rows != [] {
      hide Field, Valued;
      var n := |rows| - 1;
      var rest, last := rows[..n], rows[n];
      CountedField(rest, g, ranking);
      AdditiveField(rest, [last], last, g, ranking);
      assert rows == rest + [last];
      ValuedPush(rest, last, g);
    }
  }

  lemma ValuedPush(rows: seq<Contribution>, c: Contribution, g: Group)
    ensures |Valued(rows + [c], g)| == |Valued(rows, g)| + if c.group == g && c.value.Some? then 1 else 0
  {
    var n: nat := |rows|;
    var longer, more := rows + [c], if c.group == g && c.value.Some? then {n} else {};
    forall i: nat ensures i in Valued(longer, g) <==> i in Valued(rows, g) + more {
      assert i < n ==> longer[i] == rows[i];
      assert longer[n] == c;
    }
    assert Valued(longer, g) == Valued(rows, g) + more;
  }

  /** The positions of the group's rows that have a value. */
  ghost function Valued(rows: seq<Contribution>, g: Group): set<nat> {
    set i: nat | i < |rows| && rows[i].group == g && rows[i].value.Some?
  }

  lemma UniquePermutes(a: seq<Contribution>, b: seq<Contribution>)
    requires multiset(a) == multiset(b) && UniqueRanks(a)
    ensures UniqueRanks(b)
  {
    forall i, j | 0 <= i < j < |b| && b[i].group == b[j].group ensures b[i].rank != b[j].rank {
      assert b[i] in multiset(b) && b[j] in multiset(b);
      assert b[i] in a && b[j] in a;
      if b[i] != b[j] {
        DistinctRanks(a, b[i], b[j]);
      } else {
        Twice(b, i, j);
        NotTwice(a, b[i]);
      }
    }
  }

  lemma Twice(b: seq<Contribution>, i: nat, j: nat)
    requires i < j < |b| && b[i] == b[j]
    ensures multiset(b)[b[i]] >= 2
  {
    assert b == b[..i] + [b[i]] + b[i + 1..];
    assert b[i + 1..][j - i - 1] == b[j];
    assert b[j] in multiset(b[i + 1..]);
  }

  lemma {:induction false} NotTwice(a: seq<Contribution>, c: Contribution)
    requires UniqueRanks(a)
    ensures multiset(a)[c] <= 1
  {
    if a != [] {
      NotTwice(a[1..], c);
      assert a == [a[0]] + a[1..];
      forall j | 0 <= j < |a[1..]| ensures a[1..][j] != a[0] {
        assert a[1..][j] == a[j + 1];
      }
      assert a[0] !in multiset(a[1..]);
    }
  }

  /** With the uniqueness guard passed, no order of rows and no choice of ranking changes a merged field. */
  lemma FieldIsDetermined(
    rule: Rule, a: seq<Contribution>, b: seq<Contribution>, g: Group,
    p: seq<Contribution>, q: seq<Contribution>, nullsFirst: bool)
    requires multiset(a) == multiset(b) && UniqueRanks(a)
    requires IsRanking(p, a, g, nullsFirst) && IsRanking(q, b, g, nullsFirst)
    ensures Field(rule, a, g, p) == Field(rule, b, g, q)
  {
    OfGroupPermutes(a, b, g);
    ValuesPermute(OfGroup(a, g), OfGroup(b, g));
    match rule {
      case Total(op) => FoldPermutes(op, Values(OfGroup(a, g)), Values(OfGroup(b, g)));
      case RequireEqual => FoldPermutes(Min, Values(OfGroup(a, g)), Values(OfGroup(b, g)));
      case Counted => FoldPermutes(Sum, Values(OfGroup(a, g)), Values(OfGroup(b, g)));
      case Winner =>
        assert |p| == |multiset(p)| == |multiset(q)| == |q|;
        if p != [] {
          UniquePermutes(a, b);
          RankingStartsWithLeast(p, a, g, nullsFirst);
          RankingStartsWithLeast(q, b, g, nullsFirst);
          LeastPermutes(a, b, g, p[0], nullsFirst);
          LeastIsUnique(b, g, p[0], q[0], nullsFirst);
          WinnerIsFirst(p);
          WinnerIsFirst(q);
        }
    }
  }

  lemma LeastPermutes(a: seq<Contribution>, b: seq<Contribution>, g: Group, c: Contribution, nullsFirst: bool)
    requires multiset(a) == multiset(b) && UniqueLeast(a, g, c, nullsFirst)
    ensures UniqueLeast(b, g, c, nullsFirst)
  {
    OfGroupPermutes(a, b, g);
    forall d ensures d in OfGroup(a, g) <==> d in OfGroup(b, g) {
      assert d in multiset(OfGroup(a, g)) <==> d in multiset(OfGroup(b, g));
    }
  }

  // ---------- conservation ----------

  ghost function CountIn(rows: seq<Contribution>, groups: set<Group>): nat {
    if rows == [] then 0
    else (if rows[0].group in groups && rows[0].value.Some? then 1 else 0) + CountIn(rows[1..], groups)
  }

  /** The merged counts of these groups, added up. */
  ghost function SumOfCounts(rows: seq<Contribution>, groups: set<Group>): int {
    if groups == {} then 0
    else
      var g :| g in groups;
      Amount(Field(Counted, rows, g, [])) + SumOfCounts(rows, groups - {g})
  }

  lemma {:induction false} CountOne(rows: seq<Contribution>, g: Group)
    ensures Field(Counted, rows, g, []) == Some(CountIn(rows, {g}))
  {
    if rows != [] {
      CountOne(rows[1..], g);
      var rest := OfGroup(rows[1..], g);
      assert Values([rows[0]] + rest)[1..] == Values(rest);
      assert [] + rest == rest;
    }
  }

  lemma {:induction false} CountSplit(rows: seq<Contribution>, groups: set<Group>, g: Group)
    requires g in groups
    ensures CountIn(rows, groups) == CountIn(rows, {g}) + CountIn(rows, groups - {g})
  {
    if rows != [] {
      CountSplit(rows[1..], groups, g);
    }
  }

  /** The groups' counts add up to the contributions that are not NULL: none is lost, none counts twice. */
  lemma {:induction false} CountsAddUp(rows: seq<Contribution>, groups: set<Group>)
    ensures SumOfCounts(rows, groups) == CountIn(rows, groups)
    decreases groups
  {
    if groups == {} {
      NoneIn(rows);
    } else {
      var g :| g in groups && SumOfCounts(rows, groups) == Amount(Field(Counted, rows, g, [])) + SumOfCounts(rows, groups - {g});
      CountsAddUp(rows, groups - {g});
      CountOne(rows, g);
      assert Amount(Field(Counted, rows, g, [])) == CountIn(rows, {g});
      CountSplit(rows, groups, g);
    }
  }

  lemma {:induction false} NoneIn(rows: seq<Contribution>)
    ensures CountIn(rows, {}) == 0
  {
    if rows != [] {
      NoneIn(rows[1..]);
    }
  }

  // ---------- the sources ----------

  datatype SourceRow = SourceRow(identity: Key, group: Group, value: Option<int>)

  datatype Input = Input(priority: int, rows: seq<SourceRow>)

  ghost predicate DistinctPriorities(inputs: seq<Input>) {
    forall i, j :: 0 <= i < j < |inputs| ==> inputs[i].priority != inputs[j].priority
  }

  ghost predicate ByPriority(inputs: seq<Input>) {
    forall i, j :: 0 <= i < j < |inputs| ==> inputs[i].priority < inputs[j].priority
  }

  function Place(input: Input, sorted: seq<Input>): (r: seq<Input>)
    ensures multiset(r) == multiset(sorted) + multiset{input}
  {
    if sorted == [] || input.priority <= sorted[0].priority then [input] + sorted
    else
      assert sorted == [sorted[0]] + sorted[1..];
      [sorted[0]] + Place(input, sorted[1..])
  }

  function SortInputs(inputs: seq<Input>): (r: seq<Input>)
    ensures multiset(r) == multiset(inputs)
  {
    if inputs == [] then []
    else
      assert inputs == [inputs[0]] + inputs[1..];
      Place(inputs[0], SortInputs(inputs[1..]))
  }

  /** Fewer than two inputs, or two of the same priority, are refused; otherwise ascending priority. */
  function MergeSources(inputs: seq<Input>): Option<seq<Input>> {
    if |inputs| < 2 || exists i, j :: 0 <= i < j < |inputs| && inputs[i].priority == inputs[j].priority then None
    else Some(SortInputs(inputs))
  }

  lemma PlaceElements(input: Input, sorted: seq<Input>)
    ensures forall x :: x in Place(input, sorted) <==> x == input || x in sorted
  {
    var r := Place(input, sorted);
    assert forall x :: x in r <==> x in multiset(r);
    assert forall x :: x in sorted <==> x in multiset(sorted);
  }

  lemma {:induction false} PlaceSorts(input: Input, sorted: seq<Input>)
    requires ByPriority(sorted) && forall x :: x in sorted ==> x.priority != input.priority
    ensures ByPriority(Place(input, sorted))
  {
    if sorted != [] && sorted[0].priority < input.priority {
      var rest := Place(input, sorted[1..]);
      assert Place(input, sorted) == [sorted[0]] + rest;
      PlaceSorts(input, sorted[1..]);
      PlaceElements(input, sorted[1..]);
      hide Place;
      forall j | 0 <= j < |rest| ensures sorted[0].priority < rest[j].priority {
        assert rest[j] in rest;
      }
    }
  }

  lemma {:induction false} SortInputsSorts(inputs: seq<Input>)
    requires DistinctPriorities(inputs)
    ensures ByPriority(SortInputs(inputs))
  {
    if inputs != [] {
      SortInputsSorts(inputs[1..]);
      var sorted := SortInputs(inputs[1..]);
      forall x | x in sorted ensures x.priority != inputs[0].priority {
        assert x in multiset(sorted) && x in inputs[1..];
      }
      PlaceSorts(inputs[0], sorted);
    }
  }

  lemma FirstAtMost(a: seq<Input>, b: seq<Input>)
    requires ByPriority(a) && multiset(a) == multiset(b) && a != []
    ensures b != [] && a[0].priority <= b[0].priority
  {
    assert |a| == |multiset(a)| == |b|;
    assert b[0] in multiset(b) && b[0] in multiset(a);
    var j :| 0 <= j < |a| && a[j] == b[0];
  }

  lemma LeastIsFirst(a: seq<Input>, b: seq<Input>)
    requires ByPriority(a) && ByPriority(b) && multiset(a) == multiset(b) && a != []
    ensures b != [] && a[0] == b[0]
  {
    FirstAtMost(a, b);
    FirstAtMost(b, a);
    assert a[0] in multiset(a) && a[0] in multiset(b);
    var i :| 0 <= i < |b| && b[i] == a[0];
    assert b[i].priority == b[0].priority;
  }

  lemma RestPermutes(a: seq<Input>, b: seq<Input>)
    requires multiset(a) == multiset(b) && a != [] && b != [] && a[0] == b[0]
    ensures multiset(a[1..]) == multiset(b[1..])
  {
    assert a == [a[0]] + a[1..] && b == [b[0]] + b[1..];
    assert multiset(a[1..]) == multiset(a) - multiset{a[0]};
    assert multiset(b[1..]) == multiset(b) - multiset{b[0]};
  }

  lemma {:induction false} ByPriorityUnique(a: seq<Input>, b: seq<Input>)
    requires ByPriority(a) && ByPriority(b) && multiset(a) == multiset(b)
    ensures a == b
  {
    if a == [] {
      assert |b| == |multiset(b)|;
    } else {
      LeastIsFirst(a, b);
      RestPermutes(a, b);
      assert ByPriority(a[1..]) && ByPriority(b[1..]);
      ByPriorityUnique(a[1..], b[1..]);
      assert a == [a[0]] + a[1..] && b == [b[0]] + b[1..];
    }
  }

  /** The order in which the inputs are declared does not matter. */
  lemma MergeSourcesPermutes(a: seq<Input>, b: seq<Input>)
    requires multiset(a) == multiset(b)
    ensures MergeSources(a) == MergeSources(b)
    ensures MergeSources(a).Some? <==> |a| >= 2 && DistinctPriorities(a)
    ensures MergeSources(a).Some? ==> ByPriority(MergeSources(a).value) && multiset(MergeSources(a).value) == multiset(a)
  {
    assert |a| == |multiset(a)| == |b|;
    if DistinctPriorities(a) {
      PrioritiesPermute(a, b);
    }
    if DistinctPriorities(b) {
      PrioritiesPermute(b, a);
    }
    if |a| >= 2 && DistinctPriorities(a) {
      SortInputsSorts(a);
      SortInputsSorts(b);
      ByPriorityUnique(SortInputs(a), SortInputs(b));
    }
  }

  lemma {:induction false} PrioritiesPermute(a: seq<Input>, b: seq<Input>)
    requires multiset(a) == multiset(b) && DistinctPriorities(a)
    ensures DistinctPriorities(b)
  {
    if a != [] {
      var i := Extract(a, b);
      var rest := b[..i] + b[i + 1..];
      PrioritiesPermute(a[1..], rest);
      forall x | x in rest ensures x.priority != a[0].priority {
        assert x in multiset(rest) && x in a[1..];
      }
      forall x, y | 0 <= x < y < |b| ensures b[x].priority != b[y].priority {
        var p, q := if x < i then x else x - 1, if y < i then y else y - 1;
        if x == i {
          assert b[y] == rest[q] && rest[q] in rest;
        } else if y == i {
          assert b[x] == rest[p] && rest[p] in rest;
        } else {
          assert b[x] == rest[p] && b[y] == rest[q];
        }
      }
    } else {
      assert |b| == |multiset(b)|;
    }
  }

  // ---------- the union ----------

  function Pad(identity: Key, width: nat): (r: Key)
    ensures |r| >= |identity| && r[..|identity|] == identity
    decreases width - |identity|
  {
    if |identity| >= width then identity else Pad(identity + [None], width)
  }

  function Contribute(input: Input, i: nat, width: nat): Contribution
    requires i < |input.rows|
  {
    var row := input.rows[i];
    Contribution(row.group, [Some(input.priority)] + Pad(row.identity, width), row.value)
  }

  function Contributions(input: Input, width: nat): (r: seq<Contribution>)
    ensures |r| == |input.rows|
    ensures forall i :: 0 <= i < |r| ==> r[i] == Contribute(input, i, width)
  {
    seq(|input.rows|, i requires 0 <= i < |input.rows| => Contribute(input, i, width))
  }

  /** UNION ALL of the projections. */
  function Union(inputs: seq<Input>, width: nat): seq<Contribution> {
    if inputs == [] then [] else Contributions(inputs[0], width) + Union(inputs[1..], width)
  }

  lemma UnionHead(inputs: seq<Input>, width: nat)
    requires inputs != []
    ensures multiset(Union(inputs, width))
      == multiset(Contributions(inputs[0], width)) + multiset(Union(inputs[1..], width))
  {
  }

  lemma {:induction false} UnionMove(inputs: seq<Input>, width: nat, i: nat)
    requires i < |inputs|
    ensures multiset(Union(inputs, width))
      == multiset(Contributions(inputs[i], width)) + multiset(Union(inputs[..i] + inputs[i + 1..], width))
  {
    hide Union, Contributions;
    UnionHead(inputs, width);
    var rest := inputs[..i] + inputs[i + 1..];
    if i == 0 {
      assert rest == inputs[1..];
    } else {
      UnionMove(inputs[1..], width, i - 1);
      assert rest[1..] == inputs[1..][..i - 1] + inputs[1..][i..];
      UnionHead(rest, width);
    }
  }

  lemma {:induction false} UnionPermutes(a: seq<Input>, b: seq<Input>, width: nat)
    requires multiset(a) == multiset(b)
    ensures multiset(Union(a, width)) == multiset(Union(b, width))
  {
    if a == [] {
      assert |b| == |multiset(b)|;
    } else {
      var i := Extract(a, b);
      UnionPermutes(a[1..], b[..i] + b[i + 1..], width);
      UnionMove(b, width, i);
    }
  }

  /** Identities of one source are unique, hold no NULL, and have the same number of columns. */
  ghost predicate IdentityGuards(input: Input, columns: nat) {
    && (forall i :: 0 <= i < |input.rows| ==> |input.rows[i].identity| == columns && NoNull(input.rows[i].identity))
    && forall i, j :: 0 <= i < j < |input.rows| ==> input.rows[i].identity != input.rows[j].identity
  }

  lemma PadInjective(a: Key, b: Key, width: nat)
    requires |a| == |b| && a != b
    ensures Pad(a, width) != Pad(b, width)
  {
    assert Pad(a, width)[..|a|] == a && Pad(b, width)[..|b|] == b;
  }

  lemma ContributionsUnique(input: Input, columns: nat, width: nat)
    requires IdentityGuards(input, columns)
    ensures UniqueRanks(Contributions(input, width))
  {
    var r := Contributions(input, width);
    forall i, j | 0 <= i < j < |r| ensures r[i].rank != r[j].rank {
      PadInjective(input.rows[i].identity, input.rows[j].identity, width);
      assert r[i].rank[1..] == Pad(input.rows[i].identity, width);
      assert r[j].rank[1..] == Pad(input.rows[j].identity, width);
    }
  }

  lemma {:induction false} UnionPriorities(inputs: seq<Input>, width: nat)
    ensures forall c :: c in Union(inputs, width) ==>
      c.rank != [] && exists i :: 0 <= i < |inputs| && c.rank[0] == Some(inputs[i].priority)
  {
    if inputs != [] {
      UnionPriorities(inputs[1..], width);
      forall c | c in Union(inputs, width)
        ensures c.rank != [] && exists i :: 0 <= i < |inputs| && c.rank[0] == Some(inputs[i].priority)
      {
        if c in Contributions(inputs[0], width) {
          assert c.rank[0] == Some(inputs[0].priority);
        } else {
          assert c in Union(inputs[1..], width);
          var i :| 0 <= i < |inputs[1..]| && c.rank[0] == Some(inputs[1..][i].priority);
          assert c.rank[0] == Some(inputs[i + 1].priority);
        }
      }
    }
  }

  /**
   * Distinct priorities and the guards on each source already imply unique ranks: the guard on the
   * encoded identities can fail only where the encoding maps two identities to one text.
   */
  lemma {:induction false} GuardsMakeRanksUnique(inputs: seq<Input>, columns: seq<nat>, width: nat)
    requires DistinctPriorities(inputs) && |columns| == |inputs|
    requires forall i :: 0 <= i < |inputs| ==> IdentityGuards(inputs[i], columns[i])
    ensures UniqueRanks(Union(inputs, width))
  {
    if inputs != [] {
      var first, rest := Contributions(inputs[0], width), Union(inputs[1..], width);
      ContributionsUnique(inputs[0], columns[0], width);
      GuardsMakeRanksUnique(inputs[1..], columns[1..], width);
      UnionPriorities(inputs[1..], width);
      var all := Union(inputs, width);
      forall i, j | 0 <= i < j < |all| && all[i].group == all[j].group ensures all[i].rank != all[j].rank {
        if i < |first| <= j {
          assert all[j] == rest[j - |first|] && rest[j - |first|] in rest;
          assert first[i].rank[0] == Some(inputs[0].priority);
          var k :| 0 <= k < |inputs[1..]| && all[j].rank[0] == Some(inputs[1..][k].priority);
          assert inputs[k + 1].priority != inputs[0].priority;
        } else if j < |first| {
          assert all[i] == first[i] && all[j] == first[j];
        } else {
          assert all[i] == rest[i - |first|] && all[j] == rest[j - |first|];
        }
      }
    }
  }

  // ---------- the winner among the sources ----------

  /** Row `j` of source `i` is of the group. */
  ghost predicate Has(inputs: seq<Input>, g: Group, i: nat, j: nat) {
    i < |inputs| && j < |inputs[i].rows| && inputs[i].rows[j].group == g
  }

  lemma {:induction false} UnionFrom(inputs: seq<Input>, width: nat, c: Contribution) returns (i: nat, j: nat)
    requires c in Union(inputs, width)
    ensures i < |inputs| && j < |inputs[i].rows| && c == Contribute(inputs[i], j, width)
  {
    var first := Contributions(inputs[0], width);
    if c in first {
      i := 0;
      j :| 0 <= j < |first| && first[j] == c;
    } else {
      i, j := UnionFrom(inputs[1..], width, c);
      i := i + 1;
    }
  }

  lemma {:induction false} UnionHas(inputs: seq<Input>, width: nat, i: nat, j: nat)
    requires i < |inputs| && j < |inputs[i].rows|
    ensures Contribute(inputs[i], j, width) in Union(inputs, width)
  {
    if i == 0 {
      assert Contributions(inputs[0], width)[j] == Contribute(inputs[0], j, width);
    } else {
      UnionHas(inputs[1..], width, i - 1, j);
    }
  }

  lemma ShorterPrefix<T>(p: seq<T>, q: seq<T>, m: nat, n: nat)
    requires m <= |p| && m <= |q| && n <= |p| && n <= |q| && p[..m] == q[..m]
    ensures n <= m ==> p[..n] == q[..n]
  {
    if n <= m {
      assert p[..n] == p[..m][..n] && q[..n] == q[..m][..n];
    }
  }

  function Nones(n: nat): Key {
    if n == 0 then [] else [None] + Nones(n - 1)
  }

  lemma {:induction false} PadIs(identity: Key, width: nat)
    ensures Pad(identity, width) == identity + Nones(if |identity| >= width then 0 else width - |identity|)
    decreases width - |identity|
  {
    if |identity| < width {
      PadIs(identity + [None], width);
    }
  }

  /** What follows keys of the same length does not change which of them comes first. */
  lemma {:induction false} SortsBefore(a: Key, b: Key, rest: Key, nullsFirst: bool)
    requires |a| == |b| && Sorts(a + rest, b + rest, nullsFirst)
    ensures Sorts(a, b, nullsFirst)
  {
    if a != [] {
      assert (a + rest)[1..] == a[1..] + rest && (b + rest)[1..] == b[1..] + rest;
      if a[0] == b[0] && !ValueLess(a[0], b[0], nullsFirst) {
        SortsBefore(a[1..], b[1..], rest, nullsFirst);
      }
    }
  }

  lemma SortedIsAbove(a: Key, b: Key, nullsFirst: bool)
    requires |a| == |b| && NoNull(a) && NoNull(b) && a != b && Sorts(a, b, nullsFirst)
    ensures Above(b, a)
  {
    OneHolds(b, a);
    if AtMost(b, a) {
      AtMostSorts(b, a, nullsFirst);
      SortsAntisymmetric(a, b, nullsFirst);
    }
  }

  /** Of two rows of one source the one that ranks first has the lesser identity. */
  lemma RankedByIdentity(input: Input, columns: nat, width: nat, j: nat, k: nat, nullsFirst: bool)
    requires IdentityGuards(input, columns) && j < |input.rows| && k < |input.rows| && j != k
    requires Sorts(Contribute(input, j, width).rank, Contribute(input, k, width).rank, nullsFirst)
    ensures Above(input.rows[k].identity, input.rows[j].identity)
  {
    hide Pad, Above, Sorts, NoNull, Nones;
    var a, b := input.rows[j].identity, input.rows[k].identity;
    OtherIdentity(input, columns, j, k);
    PadIs(a, width);
    PadIs(b, width);
    var rest := Nones(if |a| >= width then 0 else width - |a|);
    SortsUnder(Some(input.priority), a + rest, b + rest, nullsFirst);
    SortsBefore(a, b, rest, nullsFirst);
    SortedIsAbove(a, b, nullsFirst);
  }

  lemma SortsUnder(x: Option<int>, a: Key, b: Key, nullsFirst: bool)
    requires Sorts([x] + a, [x] + b, nullsFirst)
    ensures Sorts(a, b, nullsFirst)
  {
    assert ([x] + a)[1..] == a && ([x] + b)[1..] == b;
  }

  lemma OtherIdentity(input: Input, columns: nat, j: nat, k: nat)
    requires IdentityGuards(input, columns) && j < |input.rows| && k < |input.rows| && j != k
    ensures
      var a, b := input.rows[j].identity, input.rows[k].identity;
      a != b && |a| == |b| && NoNull(a) && NoNull(b)
  {
    if k < j {
      assert input.rows[k].identity != input.rows[j].identity;
    }
  }

  /**
   * The winner comes from the source of least priority that has a row of the group, and is the row of least
   * identity there, whatever values the other sources contribute.
   */
  lemma MergedWinner(inputs: seq<Input>, columns: seq<nat>, width: nat, g: Group, ranking: seq<Contribution>, nullsFirst: bool)
    returns (i: nat, j: nat)
    requires DistinctPriorities(inputs) && |columns| == |inputs|
    requires forall i :: 0 <= i < |inputs| ==> IdentityGuards(inputs[i], columns[i])
    requires IsRanking(ranking, Union(inputs, width), g, nullsFirst) && exists i: nat, j: nat :: Has(inputs, g, i, j)
    ensures Has(inputs, g, i, j) && Field(Winner, Union(inputs, width), g, ranking) == inputs[i].rows[j].value
    ensures forall h: nat, k: nat :: Has(inputs, g, h, k) ==>
      || inputs[i].priority < inputs[h].priority
      || (h == i && (k == j || Above(inputs[i].rows[k].identity, inputs[i].rows[j].identity)))
  {
    hide Union, Sorts, Pad, IsRanking, Field, IdentityGuards, UniqueRanks;
    var rows := Union(inputs, width);
    GuardsMakeRanksUnique(inputs, columns, width);
    var h: nat, k: nat :| Has(inputs, g, h, k);
    UnionHas(inputs, width, h, k);
    var c := WinnerField(rows, g, ranking, nullsFirst);
    i, j := UnionFrom(inputs, width, c);
    forall h: nat, k: nat | Has(inputs, g, h, k) ensures
      || inputs[i].priority < inputs[h].priority
      || (h == i && (k == j || Above(inputs[i].rows[k].identity, inputs[i].rows[j].identity)))
    {
      UnionHas(inputs, width, h, k);
      var d := Contribute(inputs[h], k, width);
      if d == c {
        SameRow(inputs, columns, width, i, j, h, k);
      } else if h == i {
        RankedByIdentity(inputs[i], columns[i], width, j, k, nullsFirst);
      } else {
        RankedByPriority(c.rank, d.rank, nullsFirst);
      }
    }
  }

  lemma RankedByPriority(p: Key, q: Key, nullsFirst: bool)
    requires p != [] && q != [] && p[0].Some? && q[0].Some? && p[0] != q[0] && Sorts(p, q, nullsFirst)
    ensures p[0].value < q[0].value
  {
    SortsByFirst(p, q, nullsFirst);
    var m: nat :| PrecedesAt(p, q, m, nullsFirst);
    ShorterPrefix(p, q, m, 1);
    assert p[..1][0] == p[0] && q[..1][0] == q[0];
  }

  lemma SameRow(inputs: seq<Input>, columns: seq<nat>, width: nat, i: nat, j: nat, h: nat, k: nat)
    requires DistinctPriorities(inputs) && |columns| == |inputs| && i < |inputs| && h < |inputs|
    requires IdentityGuards(inputs[i], columns[i]) && j < |inputs[i].rows| && k < |inputs[h].rows|
    requires Contribute(inputs[i], j, width) == Contribute(inputs[h], k, width)
    ensures h == i && k == j
  {
    var p, q := Contribute(inputs[i], j, width).rank, Contribute(inputs[h], k, width).rank;
    assert p[0] == Some(inputs[i].priority) && q[0] == Some(inputs[h].priority);
    var a, b := inputs[i].rows[j].identity, inputs[h].rows[k].identity;
    assert p[1..] == Pad(a, width) && q[1..] == Pad(b, width);
    assert Pad(a, width)[..|a|] == a && Pad(b, width)[..|b|] == b;
  }

  /** Neither the order of the inputs, nor of their rows, nor the database's ranking changes a merged field. */
  lemma MergeIsOrderIndependent(
    rule: Rule, a: seq<Input>, b: seq<Input>, columns: seq<nat>, width: nat, g: Group,
    rows: seq<Contribution>, p: seq<Contribution>, q: seq<Contribution>, nullsFirst: bool)
    requires multiset(a) == multiset(b) && DistinctPriorities(a) && |columns| == |a|
    requires forall i :: 0 <= i < |a| ==> IdentityGuards(a[i], columns[i])
    requires multiset(rows) == multiset(Union(b, width))
    requires IsRanking(p, Union(a, width), g, nullsFirst) && IsRanking(q, rows, g, nullsFirst)
    ensures Field(rule, Union(a, width), g, p) == Field(rule, rows, g, q)
  {
    UnionPermutes(a, b, width);
    GuardsMakeRanksUnique(a, columns, width);
    FieldIsDetermined(rule, Union(a, width), rows, g, p, q, nullsFirst);
  }
}
