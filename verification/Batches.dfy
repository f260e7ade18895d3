/** One UPDATE or INSERT..SELECT as a sequence of commands over ascending key windows. */
module Batches {
  import opened Keys
  import opened Options

  type Data(!new)
  type Made(==, !new)

  datatype Row = Row(key: Key, data: Data)

  /** The statement cannot name the key among the columns it sets. */
  datatype Statement =
    | Update(where: Row -> bool, change: Row -> Data)
    | InsertSelect(where: Row -> bool, select: Row -> Made)

  /** `key > lower`, or no condition in the first round. */
  predicate Beyond(k: Key, lower: Option<Key>) {
    lower.None? || Above(k, lower.value)
  }

  predicate Within(k: Key, lower: Option<Key>, high: Key) {
    Beyond(k, lower) && AtMost(k, high)
  }

  // ---------- what the database does with one command ----------

  function Changed(st: Statement, r: Row): (c: Row)
    ensures c.key == r.key
  {
    if st.Update? then Row(r.key, st.change(r)) else r
  }

  function AfterCommand(st: Statement, rows: seq<Row>, lower: Option<Key>, high: Key): seq<Row> {
    if rows == [] then []
    else
      var r := rows[0];
      [if st.where(r) && Within(r.key, lower, high) then Changed(st, r) else r] + AfterCommand(st, rows[1..], lower, high)
  }

  function Inserted(st: Statement, rows: seq<Row>, lower: Option<Key>, high: Key): multiset<Made> {
    if st.Update? || rows == [] then multiset{}
    else
      var r := rows[0];
      (if st.where(r) && Within(r.key, lower, high) then multiset{st.select(r)} else multiset{})
      + Inserted(st, rows[1..], lower, high)
  }

  function RowCount(st: Statement, rows: seq<Row>, lower: Option<Key>, high: Key): nat {
    if rows == [] then 0
    else
      (if st.where(rows[0]) && Within(rows[0].key, lower, high) then 1 else 0) + RowCount(st, rows[1..], lower, high)
  }

  /** The keys the probe looks at: of the rows that match and lie beyond `lower`. */
  function Candidates(st: Statement, rows: seq<Row>, lower: Option<Key>): seq<Key> {
    if rows == [] then []
    else
      (if st.where(rows[0]) && Beyond(rows[0].key, lower) then [rows[0].key] else []) + Candidates(st, rows[1..], lower)
  }

  function First(s: seq<Key>, size: nat): (r: seq<Key>)
    ensures r <= s && |r| == if size < |s| then size else |s|
  {
    if size < |s| then s[..size] else s
  }

  // ---------- what the whole statement does, up to a key ----------

  /** The row matches, its key holds no NULL, and the windows so far have covered it. */
  predicate Covered(st: Statement, r: Row, upTo: Option<Key>) {
    st.where(r) && NoNull(r.key) && upTo.Some? && AtMost(r.key, upTo.value)
  }

  function Applied(st: Statement, rows: seq<Row>, upTo: Option<Key>): (r: seq<Row>)
    ensures |r| == |rows|
  {
    if rows == [] then []
    else [if Covered(st, rows[0], upTo) then Changed(st, rows[0]) else rows[0]] + Applied(st, rows[1..], upTo)
  }

  function Produced(st: Statement, rows: seq<Row>, upTo: Option<Key>): multiset<Made> {
    if st.Update? || rows == [] then multiset{}
    else
      (if Covered(st, rows[0], upTo) then multiset{st.select(rows[0])} else multiset{}) + Produced(st, rows[1..], upTo)
  }

  function CountCovered(st: Statement, rows: seq<Row>, upTo: Option<Key>): nat {
    if rows == [] then 0
    else (if Covered(st, rows[0], upTo) then 1 else 0) + CountCovered(st, rows[1..], upTo)
  }

  // ---------- the single statement ----------

  function Whole(st: Statement, rows: seq<Row>): seq<Row> {
    if rows == [] then []
    else [if st.where(rows[0]) then Changed(st, rows[0]) else rows[0]] + Whole(st, rows[1..])
  }

  function WholeInserted(st: Statement, rows: seq<Row>): multiset<Made> {
    if st.Update? || rows == [] then multiset{}
    else (if st.where(rows[0]) then multiset{st.select(rows[0])} else multiset{}) + WholeInserted(st, rows[1..])
  }

  function Matching(st: Statement, rows: seq<Row>): nat {
    if rows == [] then 0 else (if st.where(rows[0]) then 1 else 0) + Matching(st, rows[1..])
  }

  /** Each row on its own: a matching row of an UPDATE holds what the change makes of it, every other is as before. */
  ghost predicate RowByRow(st: Statement, rows: seq<Row>, after: seq<Row>, reached: Row -> bool) {
    && |after| == |rows|
    && forall i :: 0 <= i < |rows| ==>
         && after[i].key == rows[i].key
         && after[i].data == if st.Update? && st.where(rows[i]) && reached(rows[i]) then st.change(rows[i]) else rows[i].data
  }

  lemma {:induction false} WholeRowByRow(st: Statement, rows: seq<Row>)
    ensures RowByRow(st, rows, Whole(st, rows), _ => true)
  {
    if rows != [] {
      WholeRowByRow(st, rows[1..]);
      forall i | 0 < i < |rows| ensures Whole(st, rows)[i] == Whole(st, rows[1..])[i - 1] {
      }
    }
  }

  /** The positions of the rows that match. */
  ghost function Matches(st: Statement, rows: seq<Row>): set<nat> {
    set i: nat | i < |rows| && st.where(rows[i])
  }

  /** The positions of the rows that an INSERT..SELECT makes this row of. */
  ghost function Makes(st: Statement, rows: seq<Row>, made: Made): set<nat> {
    set i: nat | i < |rows| && st.InsertSelect? && st.where(rows[i]) && st.select(rows[i]) == made
  }

  lemma {:induction false} WholeJoin(st: Statement, a: seq<Row>, r: Row)
    ensures Matching(st, a + [r]) == Matching(st, a) + if st.where(r) then 1 else 0
    ensures WholeInserted(st, a + [r]) ==
      WholeInserted(st, a) + if st.InsertSelect? && st.where(r) then multiset{st.select(r)} else multiset{}
  {
    if a == [] {
      assert a + [r] == [r] && [r][1..] == [];
    } else {
      assert (a + [r])[1..] == a[1..] + [r];
      WholeJoin(st, a[1..], r);
    }
  }

  /** The single statement counts its matching rows ... */
  lemma {:induction false} MatchingCounts(st: Statement, rows: seq<Row>)
    ensures Matching(st, rows) == |Matches(st, rows)|
  {
    if rows != [] {
      hide Matching;
      var n: nat := |rows| - 1;
      var rest, last := rows[..n], rows[n];
      MatchingCounts(st, rest);
      WholeJoin(st, rest, last);
      assert rows == rest + [last];
      if st.where(last) {
        assert Matches(st, rows) == Matches(st, rest) + {n};
      } else {
        assert Matches(st, rows) == Matches(st, rest);
      }
    }
  }

  /** ... and inserts what it selects of each. */
  lemma {:induction false} InsertedCounts(st: Statement, rows: seq<Row>, made: Made)
    ensures WholeInserted(st, rows)[made] == |Makes(st, rows, made)|
  {
    if rows != [] {
      hide WholeInserted;
      var n: nat := |rows| - 1;
      var rest, last := rows[..n], rows[n];
      InsertedCounts(st, rest, made);
      WholeJoin(st, rest, last);
      assert rows == rest + [last];
      if st.InsertSelect? && st.where(last) && st.select(last) == made {
        assert Makes(st, rows, made) == Makes(st, rest, made) + {n};
      } else {
        assert Makes(st, rows, made) == Makes(st, rest, made);
      }
    }
  }

  ghost predicate NoNullMatches(st: Statement, rows: seq<Row>) {
    forall r :: r in rows && st.where(r) ==> NoNull(r.key)
  }

  ghost predicate Wide(rows: seq<Row>, width: nat) {
    forall r :: r in rows ==> |r.key| == width
  }

  ghost predicate WideKeys(keys: seq<Key>, width: nat) {
    forall k :: k in keys ==> |k| == width
  }

  ghost predicate WideBound(bound: Option<Key>, width: nat) {
    bound.Some? ==> |bound.value| == width && NoNull(bound.value)
  }

  // ---------- one window ----------

  /** Rows already covered are out of the window, so the rest of the table still decides as at the start. */
  lemma {:induction false} CandidatesOfApplied(st: Statement, rows: seq<Row>, lower: Option<Key>)
    ensures Candidates(st, Applied(st, rows, lower), lower) == Candidates(st, rows, lower)
  {
    if rows != [] {
      CandidatesOfApplied(st, rows[1..], lower);
      var r := rows[0];
      var after := Applied(st, rows, lower);
      assert after[1..] == Applied(st, rows[1..], lower);
      if Covered(st, r, lower) && Beyond(r.key, lower) {
        AboveNotAtMost(r.key, lower.value);
      }
    }
  }

  /** No row of the window holds NULL in its key. */
  ghost predicate Clean(st: Statement, rows: seq<Row>, lower: Option<Key>, high: Key) {
    forall r :: r in rows && st.where(r) && Within(r.key, lower, high) ==> NoNull(r.key)
  }

  /** Next to `lower` a clean window covers exactly what is covered up to `high`. */
  lemma CoverStep(st: Statement, r: Row, width: nat, lower: Option<Key>, high: Key)
    requires |r.key| == width == |high| && NoNull(high) && WideBound(lower, width)
    requires lower.Some? ==> Above(high, lower.value)
    requires st.where(r) && Within(r.key, lower, high) ==> NoNull(r.key)
    ensures Covered(st, r, Some(high)) <==> Covered(st, r, lower) || (st.where(r) && Within(r.key, lower, high))
    ensures !(Covered(st, r, lower) && Within(r.key, lower, high))
  {
    if lower.Some? {
      if AtMost(r.key, lower.value) {
        AtMostBelow(r.key, lower.value, high);
      }
      if NoNull(r.key) {
        OneHolds(r.key, lower.value);
      }
      if Above(r.key, lower.value) {
        AboveNotAtMost(r.key, lower.value);
      }
    }
  }

  ghost predicate WindowReady(st: Statement, rows: seq<Row>, width: nat, lower: Option<Key>, high: Key) {
    && Wide(rows, width) && |high| == width && NoNull(high) && WideBound(lower, width)
    && (lower.Some? ==> Above(high, lower.value))
    && Clean(st, rows, lower, high)
  }

  /** What the first row contributes, and the same for the other rows. */
  lemma FirstRow(st: Statement, rows: seq<Row>, width: nat, lower: Option<Key>, high: Key)
    requires rows != [] && WindowReady(st, rows, width, lower, high)
    ensures
      var r := rows[0];
      && (Covered(st, r, Some(high)) <==> Covered(st, r, lower) || (st.where(r) && Within(r.key, lower, high)))
      && !(Covered(st, r, lower) && Within(r.key, lower, high))
    ensures WindowReady(st, rows[1..], width, lower, high)
  {
    assert rows[0] in rows && forall r :: r in rows[1..] ==> r in rows;
    CoverStep(st, rows[0], width, lower, high);
  }

  lemma {:induction false} CommandExtends(st: Statement, rows: seq<Row>, width: nat, lower: Option<Key>, high: Key)
    requires WindowReady(st, rows, width, lower, high)
    ensures AfterCommand(st, Applied(st, rows, lower), lower, high) == Applied(st, rows, Some(high))
  {
    hide WindowReady, Covered, Within;
    if rows != [] {
      FirstRow(st, rows, width, lower, high);
      CommandExtends(st, rows[1..], width, lower, high);
      assert Applied(st, rows, lower)[1..] == Applied(st, rows[1..], lower);
    }
  }

  lemma {:induction false} CommandCounts(st: Statement, rows: seq<Row>, width: nat, lower: Option<Key>, high: Key)
    requires WindowReady(st, rows, width, lower, high)
    ensures RowCount(st, Applied(st, rows, lower), lower, high) == RowCount(st, rows, lower, high)
    ensures CountCovered(st, rows, Some(high)) == CountCovered(st, rows, lower) + RowCount(st, rows, lower, high)
  {
    hide WindowReady, Covered, Within;
    if rows != [] {
      FirstRow(st, rows, width, lower, high);
      CommandCounts(st, rows[1..], width, lower, high);
      assert Applied(st, rows, lower)[1..] == Applied(st, rows[1..], lower);
    }
  }

  lemma {:induction false} CommandProduces(st: Statement, rows: seq<Row>, width: nat, lower: Option<Key>, high: Key)
    requires WindowReady(st, rows, width, lower, high)
    ensures Produced(st, rows, Some(high)) == Produced(st, rows, lower) + Inserted(st, rows, lower, high)
  {
    hide WindowReady, Covered, Within;
    if rows != [] && st.InsertSelect? {
      FirstRow(st, rows, width, lower, high);
      CommandProduces(st, rows[1..], width, lower, high);
    }
  }

  lemma {:induction false} InsertLeavesRows(st: Statement, rows: seq<Row>, upTo: Option<Key>)
    requires st.InsertSelect?
    ensures Applied(st, rows, upTo) == rows
  {
    if rows != [] {
      InsertLeavesRows(st, rows[1..], upTo);
    }
  }

  // ---------- the probe ----------

  lemma {:induction false} CandidateRows(st: Statement, rows: seq<Row>, lower: Option<Key>)
    ensures forall k :: k in Candidates(st, rows, lower) <==>
      exists r :: r in rows && st.where(r) && r.key == k && Beyond(k, lower)
  {
    if rows != [] {
      CandidateRows(st, rows[1..], lower);
      assert rows == [rows[0]] + rows[1..];
    }
  }

  lemma {:induction false} RowCountIsKeyCount(st: Statement, rows: seq<Row>, lower: Option<Key>, high: Key)
    ensures RowCount(st, rows, lower, high) == CountAtMost(Candidates(st, rows, lower), high)
  {
    if rows != [] {
      RowCountIsKeyCount(st, rows[1..], lower, high);
      var rest := Candidates(st, rows[1..], lower);
      assert ([rows[0].key] + rest)[1..] == rest && [] + rest == rest;
    }
  }

  function Sorted(st: Statement, rows: seq<Row>, lower: Option<Key>, nullsFirst: bool): seq<Key> {
    Sort(Candidates(st, rows, lower), nullsFirst)
  }

  lemma SortedKeys(st: Statement, rows: seq<Row>, lower: Option<Key>, nullsFirst: bool)
    ensures Ascending(Sorted(st, rows, lower, nullsFirst), nullsFirst)
    ensures forall k :: k in Sorted(st, rows, lower, nullsFirst) <==> k in Candidates(st, rows, lower)
  {
    var c := Candidates(st, rows, lower);
    SortAscends(c, nullsFirst);
    assert forall k :: k in Sort(c, nullsFirst) <==> k in multiset(Sort(c, nullsFirst));
    assert forall k :: k in c <==> k in multiset(c);
  }

  /** A window without NULL makes ready for its command. */
  lemma WindowIsReady(st: Statement, rows: seq<Row>, width: nat, lower: Option<Key>, nullsFirst: bool, size: nat)
    requires Wide(rows, width) && WideBound(lower, width) && size > 0
    requires
      var window := First(Sorted(st, rows, lower, nullsFirst), size);
      window != [] && forall k :: k in window ==> NoNull(k)
    ensures
      var window := First(Sorted(st, rows, lower, nullsFirst), size);
      WindowReady(st, rows, width, lower, window[|window| - 1])
  {
    var sorted := Sorted(st, rows, lower, nullsFirst);
    var window := First(sorted, size);
    var high := window[|window| - 1];
    SortedKeys(st, rows, lower, nullsFirst);
    CandidateRows(st, rows, lower);
    assert high in window && high in sorted;
    forall r | r in rows && st.where(r) && Within(r.key, lower, high) ensures NoNull(r.key) {
      assert r.key in sorted;
      var j :| 0 <= j < |sorted| && sorted[j] == r.key;
      AtMostSorts(r.key, high, nullsFirst);
      if j >= |window| {
        assert sorted[|window| - 1] == high;
        SortsAntisymmetric(r.key, high, nullsFirst);
      } else {
        assert window[j] == r.key;
      }
    }
  }

  /** The command touches at least the rows of the window, and no others when keys are not repeated. */
  lemma WindowCount(st: Statement, rows: seq<Row>, width: nat, lower: Option<Key>, nullsFirst: bool, size: nat)
    requires Wide(rows, width) && size > 0
    requires
      var window := First(Sorted(st, rows, lower, nullsFirst), size);
      window != [] && forall k :: k in window ==> NoNull(k)
    ensures
      var sorted := Sorted(st, rows, lower, nullsFirst);
      var window := First(sorted, size);
      && RowCount(st, rows, lower, window[|window| - 1]) >= |window|
      && (Unrepeated(sorted) ==> RowCount(st, rows, lower, window[|window| - 1]) == |window|)
  {
    var keys, sorted := Candidates(st, rows, lower), Sorted(st, rows, lower, nullsFirst);
    var window := First(sorted, size);
    var n, high := |window|, window[|window| - 1];
    SortedKeys(st, rows, lower, nullsFirst);
    SortedWidth(st, rows, width, lower, nullsFirst);
    RowCountIsKeyCount(st, rows, lower, high);
    CountSort(keys, high, nullsFirst);
    assert high in window && high in sorted;
    forall i | 0 <= i < n ensures AtMost(sorted[i], high) {
      assert window[i] == sorted[i] && sorted[i] in window && sorted[i] in sorted;
      if i < n - 1 {
        SortsAtMost(sorted[i], high, nullsFirst);
      } else {
        AtMostSelf(high);
      }
    }
    CountPrefix(sorted, high, n);
    if Unrepeated(sorted) {
      forall i | n <= i < |sorted| ensures !AtMost(sorted[i], high) {
        if AtMost(sorted[i], high) {
          AtMostSorts(sorted[i], high, nullsFirst);
          SortsAntisymmetric(sorted[i], sorted[n - 1], nullsFirst);
        }
      }
    }
  }

  ghost predicate Unrepeated(keys: seq<Key>) {
    forall i, j :: 0 <= i < j < |keys| ==> keys[i] != keys[j]
  }

  lemma SortedWidth(st: Statement, rows: seq<Row>, width: nat, lower: Option<Key>, nullsFirst: bool)
    requires Wide(rows, width)
    ensures WideKeys(Sorted(st, rows, lower, nullsFirst), width)
  {
    SortedKeys(st, rows, lower, nullsFirst);
    CandidateRows(st, rows, lower);
  }

  // ---------- the next round ----------

  lemma {:induction false} CandidatesShrink(st: Statement, rows: seq<Row>, lower: Option<Key>, high: Key)
    requires lower.Some? ==> Above(high, lower.value)
    ensures multiset(Candidates(st, rows, Some(high))) <= multiset(Candidates(st, rows, lower))
    ensures |Candidates(st, rows, Some(high))| <= |Candidates(st, rows, lower)|
    ensures high in Candidates(st, rows, lower) ==> |Candidates(st, rows, Some(high))| < |Candidates(st, rows, lower)|
  {
    if rows != [] {
      CandidatesShrink(st, rows[1..], lower, high);
      var k := rows[0].key;
      if lower.Some? && Above(k, high) {
        AboveTransitive(k, high, lower.value);
      }
      if Above(k, high) {
        AboveNotAtMost(k, high);
      }
    }
  }

  lemma UnrepeatedCounts(keys: seq<Key>)
    ensures Unrepeated(keys) <==> forall k :: multiset(keys)[k] <= 1
  {
    if Unrepeated(keys) {
      CountOnce(keys);
    }
    if forall k :: multiset(keys)[k] <= 1 {
      forall i, j | 0 <= i < j < |keys| ensures keys[i] != keys[j] {
        assert keys == keys[..i] + [keys[i]] + keys[i + 1..];
        assert keys[i + 1..][j - i - 1] == keys[j];
        assert keys[j] in multiset(keys[i + 1..]);
        assert multiset(keys)[keys[i]] <= 1;
      }
    }
  }

  lemma {:induction false} CountOnce(keys: seq<Key>)
    requires Unrepeated(keys)
    ensures forall k :: multiset(keys)[k] <= 1
  {
    if keys != [] {
      CountOnce(keys[1..]);
      assert keys == [keys[0]] + keys[1..];
      assert keys[0] !in multiset(keys[1..]);
    }
  }

  lemma StaysUnrepeated(st: Statement, rows: seq<Row>, lower: Option<Key>, nullsFirst: bool)
    requires Unrepeated(Candidates(st, rows, None))
    ensures Unrepeated(Sorted(st, rows, lower, nullsFirst))
  {
    UnrepeatedCounts(Candidates(st, rows, None));
    UnrepeatedCounts(Sorted(st, rows, lower, nullsFirst));
    CandidatesWithin(st, rows, lower);
  }

  lemma {:induction false} CandidatesWithin(st: Statement, rows: seq<Row>, lower: Option<Key>)
    ensures multiset(Candidates(st, rows, lower)) <= multiset(Candidates(st, rows, None))
  {
    if rows != [] {
      CandidatesWithin(st, rows[1..], lower);
    }
  }

  lemma SomeElement(keys: seq<Key>)
    ensures keys == [] || exists k :: k in keys
  {
    if keys != [] {
      assert keys[0] in keys;
    }
  }

  /** A window that was not full was the last one. */
  lemma LastWindow(st: Statement, rows: seq<Row>, width: nat, lower: Option<Key>, nullsFirst: bool, size: nat)
    requires WideBound(lower, width) && Wide(rows, width)
    requires
      var window := First(Sorted(st, rows, lower, nullsFirst), size);
      0 < |window| < size && forall k :: k in window ==> NoNull(k)
    ensures
      var window := First(Sorted(st, rows, lower, nullsFirst), size);
      Candidates(st, rows, Some(window[|window| - 1])) == []
  {
    var sorted := Sorted(st, rows, lower, nullsFirst);
    var high := sorted[|sorted| - 1];
    SortedKeys(st, rows, lower, nullsFirst);
    SortedWidth(st, rows, width, lower, nullsFirst);
    CandidateRows(st, rows, lower);
    CandidateRows(st, rows, Some(high));
    assert high in sorted;
    forall k | k in Candidates(st, rows, Some(high)) ensures false {
      if lower.Some? {
        AboveTransitive(k, high, lower.value);
      }
      assert k in sorted;
      var j :| 0 <= j < |sorted| && sorted[j] == k;
      AboveNotAtMost(k, high);
      if j < |sorted| - 1 {
        SortsAtMost(k, high, nullsFirst);
      }
    }
    SomeElement(Candidates(st, rows, Some(high)));
  }

  // ---------- the end ----------

  /** The same statement on the rows whose key holds no NULL. */
  ghost function NonNullPart(st: Statement): Statement {
    match st
    case Update(where, change) => Update(r => where(r) && NoNull(r.key), change)
    case InsertSelect(where, select) => InsertSelect(r => where(r) && NoNull(r.key), select)
  }

  lemma {:induction false} NothingLeft(st: Statement, rows: seq<Row>, width: nat, lower: Option<Key>)
    requires Wide(rows, width) && WideBound(lower, width) && Candidates(st, rows, lower) == []
    ensures Applied(st, rows, lower) == Whole(NonNullPart(st), rows)
    ensures Produced(st, rows, lower) == WholeInserted(NonNullPart(st), rows)
    ensures CountCovered(st, rows, lower) == Matching(NonNullPart(st), rows)
  {
    if rows != [] {
      var r := rows[0];
      assert r in rows && forall q :: q in rows[1..] ==> q in rows;
      NothingLeft(st, rows[1..], width, lower);
      if st.where(r) && NoNull(r.key) {
        OneHolds(r.key, lower.value);
      }
      assert Covered(st, r, lower) <==> NonNullPart(st).where(r);
    }
  }

  lemma NonNullRowByRow(st: Statement, rows: seq<Row>)
    ensures RowByRow(st, rows, Whole(NonNullPart(st), rows), (r: Row) => NoNull(r.key))
  {
    WholeRowByRow(NonNullPart(st), rows);
  }

  lemma {:induction false} NoNullIsWhole(st: Statement, rows: seq<Row>)
    requires NoNullMatches(st, rows)
    ensures Whole(NonNullPart(st), rows) == Whole(st, rows)
    ensures WholeInserted(NonNullPart(st), rows) == WholeInserted(st, rows)
  {
    if rows != [] {
      assert rows[0] in rows && forall q :: q in rows[1..] ==> q in rows;
      NoNullIsWhole(st, rows[1..]);
    }
  }

  /** A row with NULL in its key is exactly what makes the counts differ. */
  lemma {:induction false} CountsAgreeIff(st: Statement, rows: seq<Row>)
    ensures Matching(NonNullPart(st), rows) <= Matching(st, rows)
    ensures Matching(NonNullPart(st), rows) == Matching(st, rows) <==> NoNullMatches(st, rows)
  {
    if rows != [] {
      assert rows == [rows[0]] + rows[1..];
      CountsAgreeIff(st, rows[1..]);
      assert NoNullMatches(st, rows) <==> (st.where(rows[0]) ==> NoNull(rows[0].key)) && NoNullMatches(st, rows[1..]);
    }
  }

  // ---------- the loop ----------

  /** The source of the keys, which an UPDATE also changes, and the target of an INSERT, a different table. */
  class Tables {
    var rows: seq<Row>
    var made: multiset<Made>

    constructor (rows: seq<Row>)
      ensures this.rows == rows && made == multiset{}
    {
      this.rows, made := rows, multiset{};
    }

    method Probe(st: Statement, lower: Option<Key>, size: nat, nullsFirst: bool) returns (keys: seq<Key>)
      ensures keys == First(Sorted(st, rows, lower, nullsFirst), size)
    {
      keys := First(Sorted(st, rows, lower, nullsFirst), size);
    }

    method Command(st: Statement, lower: Option<Key>, high: Key) returns (count: nat)
      modifies this
      ensures rows == AfterCommand(st, old(rows), lower, high)
      ensures made == old(made) + Inserted(st, old(rows), lower, high)
      ensures count == RowCount(st, old(rows), lower, high)
    {
      count := RowCount(st, rows, lower, high);
      made := made + Inserted(st, rows, lower, high);
      rows := AfterCommand(st, rows, lower, high);
    }
  }

  datatype Outcome = Done(affected: nat) | NullKey

  ghost function Sum(chunks: seq<nat>): nat {
    if chunks == [] then 0 else Sum(chunks[..|chunks| - 1]) + chunks[|chunks| - 1]
  }

  /** Full windows, then perhaps a smaller one after which nothing is left. */
  ghost predicate Filled(chunks: seq<nat>, size: nat, left: nat) {
    && (forall k :: 0 <= k < |chunks| - 1 ==> chunks[k] == size)
    && (chunks != [] ==> 0 < chunks[|chunks| - 1] <= size)
    && (chunks != [] && chunks[|chunks| - 1] < size ==> left == 0)
  }

  /** One round: what the window, the command and the new bound do together. */
  lemma OneRound(st: Statement, rows: seq<Row>, width: nat, lower: Option<Key>, nullsFirst: bool, size: nat, window: seq<Key>)
    requires Wide(rows, width) && WideBound(lower, width) && size > 0
    requires window == First(Sorted(st, rows, lower, nullsFirst), size)
    requires window != [] && forall k :: k in window ==> NoNull(k)
    ensures
      var high := window[|window| - 1];
      && WindowReady(st, rows, width, lower, high) && WideBound(Some(high), width)
      && |Candidates(st, rows, Some(high))| < |Candidates(st, rows, lower)|
      && RowCount(st, rows, lower, high) >= 1
      && (Unrepeated(Candidates(st, rows, None)) ==> RowCount(st, rows, lower, high) == |window|)
      && (|window| < size ==> Candidates(st, rows, Some(high)) == [])
  {
    hide Candidates, Sorted, RowCount, First;
    var high := window[|window| - 1];
    WindowIsReady(st, rows, width, lower, nullsFirst, size);
    WindowCount(st, rows, width, lower, nullsFirst, size);
    SortedKeys(st, rows, lower, nullsFirst);
    assert high in window && high in Sorted(st, rows, lower, nullsFirst);
    ReadyBound(st, rows, width, lower, high);
    CandidatesShrink(st, rows, lower, high);
    if Unrepeated(Candidates(st, rows, None)) {
      StaysUnrepeated(st, rows, lower, nullsFirst);
    }
    if |window| < size {
      LastWindow(st, rows, width, lower, nullsFirst, size);
    }
  }

  lemma ReadyBound(st: Statement, rows: seq<Row>, width: nat, lower: Option<Key>, high: Key)
    requires WindowReady(st, rows, width, lower, high)
    ensures (lower.Some? ==> Above(high, lower.value)) && WideBound(Some(high), width)
  {
  }

  lemma {:induction false} NothingYet(st: Statement, rows: seq<Row>)
    ensures Applied(st, rows, None) == rows && Produced(st, rows, None) == multiset{} && CountCovered(st, rows, None) == 0
  {
    if rows != [] {
      NothingYet(st, rows[1..]);
    }
  }

  lemma SameSorted(st: Statement, rows: seq<Row>, lower: Option<Key>, nullsFirst: bool)
    ensures Sorted(st, Applied(st, rows, lower), lower, nullsFirst) == Sorted(st, rows, lower, nullsFirst)
  {
    CandidatesOfApplied(st, rows, lower);
  }

  lemma EmptyWindow(st: Statement, rows: seq<Row>, lower: Option<Key>, nullsFirst: bool, size: nat)
    requires size > 0 && First(Sorted(st, rows, lower, nullsFirst), size) == []
    ensures Candidates(st, rows, lower) == []
  {
  }

  lemma NullInWindow(st: Statement, rows: seq<Row>, lower: Option<Key>, nullsFirst: bool, size: nat)
    requires !forall k :: k in First(Sorted(st, rows, lower, nullsFirst), size) ==> NoNull(k)
    ensures !NoNullMatches(st, rows)
  {
    var k :| k in First(Sorted(st, rows, lower, nullsFirst), size) && !NoNull(k);
    SortedKeys(st, rows, lower, nullsFirst);
    assert k in Sorted(st, rows, lower, nullsFirst);
    CandidateRows(st, rows, lower);
  }

  lemma InsertedFromApplied(st: Statement, rows: seq<Row>, lower: Option<Key>, high: Key)
    ensures Inserted(st, Applied(st, rows, lower), lower, high) == Inserted(st, rows, lower, high)
  {
    if st.InsertSelect? {
      InsertLeavesRows(st, rows, lower);
    }
  }

  lemma SumPush(chunks: seq<nat>, n: nat)
    ensures Sum(chunks + [n]) == Sum(chunks) + n
  {
    assert (chunks + [n])[..|chunks|] == chunks;
  }

  /** So the number of commands is the number of rows divided by the size, rounded up. */
  lemma {:induction false} CommandsNeeded(chunks: seq<nat>, size: nat)
    requires size > 0 && Filled(chunks, size, 0)
    ensures |chunks| == (Sum(chunks) + size - 1) / size
  {
    if chunks != [] {
      var last := |chunks| - 1;
      SumOfFull(chunks[..last], size);
      DivideUp(last, chunks[last], size);
    }
  }

  lemma {:induction false} SumOfFull(chunks: seq<nat>, size: nat)
    requires forall k :: 0 <= k < |chunks| ==> chunks[k] == size
    ensures Sum(chunks) == |chunks| * size
  {
    if chunks != [] {
      SumOfFull(chunks[..|chunks| - 1], size);
    }
  }

  lemma DivideUp(full: nat, rest: nat, size: nat)
    requires 0 < rest <= size
    ensures (full * size + rest + size - 1) / size == full + 1
  {
    var n := full * size + rest + size - 1;
    assert n == (full + 1) * size + (rest - 1);
    QuotientIs(n, full + 1, rest - 1, size);
  }

  lemma QuotientIs(n: nat, q: nat, r: nat, size: nat)
    requires r < size && n == q * size + r
    ensures n / size == q
  {
    assert n == (n / size) * size + n % size;
    assert (n / size - q) * size == r - n % size;
    SmallMultiple(n / size - q, size);
  }

  lemma SmallMultiple(k: int, size: int)
    requires 0 - size < k * size < size
    ensures k == 0
  {
    assert k >= 1 ==> k * size >= size;
    assert k <= -1 ==> k * size <= 0 - size;
  }

  lemma CandidatesOfTwo(st: Statement, a: Row, b: Row, lower: Option<Key>)
    requires st.where(a) && st.where(b)
    ensures Candidates(st, [a, b], lower)
      == (if Beyond(a.key, lower) then [a.key] else []) + (if Beyond(b.key, lower) then [b.key] else [])
  {
    hide Beyond;
    assert [a, b][1..] == [b] && [b][1..] == [];
    assert Candidates(st, [b], lower) == if Beyond(b.key, lower) then [b.key] else [];
  }

  /** Where NULL sorts last, no probe of this table meets it: a window of one row ends before it. */
  lemma NullUnseen(st: Statement, one: Data, other: Data, lower: Option<Key>)
    requires st.where(Row([Some(1)], one)) && st.where(Row([None], other))
    requires Boundary(st, [Row([Some(1)], one), Row([None], other)], lower)
    ensures !SeesNull(st, [Row([Some(1)], one), Row([None], other)], lower, false, 1)
  {
    hide Candidates, Sort;
    var rows := [Row([Some(1)], one), Row([None], other)];
    FirstProbe(st, rows[0], rows[1]);
    if lower.Some? {
      assert !NoNull(rows[1].key) by {
        assert rows[1].key[0] in rows[1].key;
      }
      assert lower.value in [rows[0].key, rows[1].key];
      NoSecondProbe(st, rows[0], rows[1]);
    }
  }

  lemma FirstProbe(st: Statement, a: Row, b: Row)
    requires st.where(a) && st.where(b) && a.key == [Some(1)] && b.key == [None]
    ensures Candidates(st, [a, b], None) == [a.key, b.key]
    ensures First(Sorted(st, [a, b], None, false), 1) == [a.key]
  {
    CandidatesOfTwo(st, a, b, None);
    SortOfTwo();
    hide Candidates, Sort;
  }

  lemma NoSecondProbe(st: Statement, a: Row, b: Row)
    requires st.where(a) && st.where(b) && a.key == [Some(1)] && b.key == [None]
    ensures Sorted(st, [a, b], Some(a.key), false) == []
  {
    CandidatesOfTwo(st, a, b, Some(a.key));
    hide Candidates;
    AtMostSelf([Some(1)]);
    assert !Above(a.key, a.key) by {
      if Above(a.key, a.key) {
        AboveNotAtMost(a.key, a.key);
      }
    }
    assert Candidates(st, [a, b], Some(a.key)) == [];
  }

  lemma SortOfTwo()
    ensures Sort([[Some(1)], [None]], false) == [[Some(1)], [None]]
  {
    assert Sort([[None]], false) == [[None]];
    assert [[Some(1)], [None]][1..] == [[None]];
    assert Sorts([Some(1)], [None], false);
  }

  /** What the windows up to `lower` have done: `rows` and `made` are the tables at the start. */
  ghost predicate Reached(tables: Tables, st: Statement, rows: seq<Row>, made: multiset<Made>, lower: Option<Key>, width: nat)
    reads tables
  {
    && Wide(rows, width) && WideBound(lower, width)
    && tables.rows == Applied(st, rows, lower)
    && tables.made == made + Produced(st, rows, lower)
  }

  /** The probe that starts after `lower` returns a key with NULL. */
  ghost predicate SeesNull(st: Statement, rows: seq<Row>, lower: Option<Key>, nullsFirst: bool, size: nat) {
    exists k :: k in First(Sorted(st, rows, lower, nullsFirst), size) && !NoNull(k)
  }

  /** Where a window can start: at the beginning, or after the key of a matching row. */
  ghost predicate Boundary(st: Statement, rows: seq<Row>, lower: Option<Key>) {
    lower.Some? ==> lower.value in Candidates(st, rows, None) && NoNull(lower.value)
  }

  lemma HighIsCandidate(st: Statement, rows: seq<Row>, lower: Option<Key>, nullsFirst: bool, size: nat, window: seq<Key>)
    requires window == First(Sorted(st, rows, lower, nullsFirst), size) && window != []
    ensures window[|window| - 1] in Candidates(st, rows, None)
  {
    var high := window[|window| - 1];
    SortedKeys(st, rows, lower, nullsFirst);
    CandidateRows(st, rows, lower);
    CandidateRows(st, rows, None);
    assert high in window && high in Sorted(st, rows, lower, nullsFirst);
  }

  datatype Round = Last | NullSeen | Next(high: Key, count: nat)

  /** One round of the loop: probe, check, command. */
  method ExecuteWindow(tables: Tables, st: Statement, size: nat, nullsFirst: bool, lower: Option<Key>,
                       ghost rows: seq<Row>, ghost made: multiset<Made>, ghost width: nat)
    returns (round: Round)
    requires size > 0 && Reached(tables, st, rows, made, lower, width)
    modifies tables
    ensures round.Last? ==> Reached(tables, st, rows, made, lower, width) && Candidates(st, rows, lower) == []
    ensures round.NullSeen? ==> !NoNullMatches(st, rows) && SeesNull(st, rows, lower, nullsFirst, size)
    ensures round.Next? ==>
      && Reached(tables, st, rows, made, Some(round.high), width)
      && round.high in Candidates(st, rows, None)
      && |Candidates(st, rows, Some(round.high))| < |Candidates(st, rows, lower)|
      && CountCovered(st, rows, Some(round.high)) == CountCovered(st, rows, lower) + round.count
      && round.count >= 1
      && (Unrepeated(Candidates(st, rows, None)) ==>
            round.count <= size && (round.count < size ==> Candidates(st, rows, Some(round.high)) == []))
  {
    hide Candidates, Sorted, RowCount, First, Applied, Produced, CountCovered, AfterCommand, Inserted, WindowReady,
      NoNullMatches, Above, AtMost, Unrepeated;
    var window := tables.Probe(st, lower, size, nullsFirst);
    SameSorted(st, rows, lower, nullsFirst);
    if window == [] {
      EmptyWindow(st, rows, lower, nullsFirst, size);
      return Last;
    }
    if !forall k :: k in window ==> NoNull(k) {
      NullInWindow(st, rows, lower, nullsFirst, size);
      return NullSeen;
    }
    var high := window[|window| - 1];
    OneRound(st, rows, width, lower, nullsFirst, size, window);
    HighIsCandidate(st, rows, lower, nullsFirst, size, window);
    ReadyBound(st, rows, width, lower, high);
    if lower.Some? {
      AboveNotAtMost(high, lower.value);
      // The loop's own check for a key that did not advance never fires.
      assert high != lower.value;
    }
    CommandExtends(st, rows, width, lower, high);
    CommandCounts(st, rows, width, lower, high);
    CommandProduces(st, rows, width, lower, high);
    InsertedFromApplied(st, rows, lower, high);
    var count := tables.Command(st, lower, high);
    FirstLength(Sorted(st, rows, lower, nullsFirst), size);
    round := Next(high, count);
  }

  lemma FirstLength(s: seq<Key>, size: nat)
    ensures |First(s, size)| <= size
  {
  }

  /**
   * The window loop does what the single statement does on the rows whose key holds no NULL, and reports
   * as many rows; it fails only where a probe meets NULL. With keys that are not repeated every command but
   * the last touches exactly `size` rows, so their number is that of the rows divided by the size, rounded up.
   */
  method ExecuteBatches(tables: Tables, st: Statement, size: nat, nullsFirst: bool, ghost width: nat)
    returns (outcome: Outcome, ghost chunks: seq<nat>)
    requires size > 0 && Wide(tables.rows, width)
    modifies tables
    ensures outcome.NullKey? ==>
      && !NoNullMatches(st, old(tables.rows))
      && exists lower :: Boundary(st, old(tables.rows), lower) && SeesNull(st, old(tables.rows), lower, nullsFirst, size)
    ensures outcome.Done? ==>
      && tables.rows == Whole(NonNullPart(st), old(tables.rows))
      && tables.made == old(tables.made) + WholeInserted(NonNullPart(st), old(tables.rows))
      && outcome.affected == Sum(chunks) == Matching(NonNullPart(st), old(tables.rows))
      && RowByRow(st, old(tables.rows), tables.rows, (r: Row) => NoNull(r.key))
    ensures NoNullMatches(st, old(tables.rows)) ==>
      && outcome == Done(Matching(st, old(tables.rows)))
      && tables.rows == Whole(st, old(tables.rows))
      && tables.made == old(tables.made) + WholeInserted(st, old(tables.rows))
    ensures forall k :: 0 <= k < |chunks| ==> chunks[k] >= 1
    ensures outcome.Done? && Unrepeated(Candidates(st, old(tables.rows), None)) ==>
      && Filled(chunks, size, 0)
      && |chunks| == (Matching(NonNullPart(st), old(tables.rows)) + size - 1) / size
  {
    hide Candidates, Applied, Produced, CountCovered, NonNullPart, Whole, WholeInserted, Matching, NoNullMatches,
      Unrepeated, Sum, Filled, SeesNull, RowByRow;
    ghost var rows, made := tables.rows, tables.made;
    var lower: Option<Key> := None;
    var affected := 0;
    chunks := [];
    NothingYet(st, rows);
    SumNone();
    NoChunks(size, |Candidates(st, rows, None)|);
    while true
      invariant Reached(tables, st, rows, made, lower, width) && Boundary(st, rows, lower)
      invariant affected == CountCovered(st, rows, lower) == Sum(chunks)
      invariant forall k :: 0 <= k < |chunks| ==> chunks[k] >= 1
      invariant Unrepeated(Candidates(st, rows, None)) ==> Filled(chunks, size, |Candidates(st, rows, lower)|)
      decreases |Candidates(st, rows, lower)|
    {
      var round := ExecuteWindow(tables, st, size, nullsFirst, lower, rows, made, width);
      match round {
        case NullSeen =>
          return NullKey, chunks;
        case Last =>
          NothingLeft(st, rows, width, lower);
          NonNullRowByRow(st, rows);
          if NoNullMatches(st, rows) {
            NoNullIsWhole(st, rows);
            CountsAgreeIff(st, rows);
          }
          if Unrepeated(Candidates(st, rows, None)) {
            CommandsNeeded(chunks, size);
          }
          return Done(affected), chunks;
        case Next(high, count) =>
          SumPush(chunks, count);
          if Unrepeated(Candidates(st, rows, None)) {
            FilledPush(chunks, size, |Candidates(st, rows, lower)|, count, |Candidates(st, rows, Some(high))|);
          }
          affected, chunks, lower := affected + count, chunks + [count], Some(high);
      }
    }
  }

  lemma NoChunks(size: nat, left: nat)
    ensures Filled([], size, left)
  {
  }

  lemma FilledPush(chunks: seq<nat>, size: nat, left: nat, count: nat, left': nat)
    requires left' < left && 0 < count <= size && (count < size ==> left' == 0)
    ensures Filled(chunks, size, left) ==> Filled(chunks + [count], size, left')
  {
  }

  lemma SumNone()
    ensures Sum([]) == 0
  {
  }

  /**
   * Why the key must not hold NULL: where the backend sorts NULL last, a full first window ends before
   * the row, and the comparison that starts the next window is never true of it. The loop ends normally
   * with the row left out.
   */
  method NullIsSkipped(st: Statement, one: Data, other: Data) returns (tables: Tables, outcome: Outcome)
    requires st.where(Row([Some(1)], one)) && st.where(Row([None], other))
    ensures outcome == Done(1) && Matching(st, [Row([Some(1)], one), Row([None], other)]) == 2
    ensures st.Update? ==> tables.rows == [Changed(st, Row([Some(1)], one)), Row([None], other)]
    ensures st.InsertSelect? ==> tables.made == multiset{st.select(Row([Some(1)], one))}
  {
    var rows := [Row([Some(1)], one), Row([None], other)];
    tables := new Tables(rows);
    ghost var chunks;
    outcome, chunks := ExecuteBatches(tables, st, 1, false, 1);
    forall lower | Boundary(st, rows, lower) ensures !SeesNull(st, rows, lower, false, 1) {
      NullUnseen(st, one, other, lower);
    }
    NonNullOfTwo(st, rows[0], rows[1]);
  }

  function MadeOf(st: Statement, r: Row): multiset<Made>
    requires st.InsertSelect?
  {
    if st.where(r) then multiset{st.select(r)} else multiset{}
  }

  lemma OfTwo(st: Statement, a: Row, b: Row)
    ensures Matching(st, [a, b]) == (if st.where(a) then 1 else 0) + if st.where(b) then 1 else 0
    ensures Whole(st, [a, b]) == [if st.where(a) then Changed(st, a) else a, if st.where(b) then Changed(st, b) else b]
    ensures st.InsertSelect? ==> WholeInserted(st, [a, b]) == MadeOf(st, a) + MadeOf(st, b)
  {
    assert [a, b][1..] == [b] && [b][1..] == [];
    assert Matching(st, [b]) == if st.where(b) then 1 else 0;
    assert Whole(st, [b]) == [if st.where(b) then Changed(st, b) else b];
    if st.InsertSelect? {
      assert WholeInserted(st, [b]) == MadeOf(st, b);
    }
  }

  lemma NonNullOfTwo(st: Statement, a: Row, b: Row)
    requires st.where(a) && st.where(b) && NoNull(a.key) && !NoNull(b.key)
    ensures Matching(st, [a, b]) == 2 && Matching(NonNullPart(st), [a, b]) == 1
    ensures Whole(NonNullPart(st), [a, b]) == [Changed(st, a), b]
    ensures st.InsertSelect? ==> WholeInserted(NonNullPart(st), [a, b]) == multiset{st.select(a)}
  {
    OfTwo(st, a, b);
    OfTwo(NonNullPart(st), a, b);
    hide Whole, WholeInserted, Matching, NoNull;
  }
}
