/** Composite keys: how a database compares and orders them, with NULL in any column. */
module Keys {
  import opened Options

  /** One value per key column; None is NULL. Only the order of the values matters. */
  type Key = seq<Option<int>>

  predicate NoNull(k: Key) {
    forall v :: v in k ==> v.Some?
  }

  /** The row comparison `a > b` is true; with NULL in a deciding column it is not. */
  predicate Above(a: Key, b: Key) {
    && a != [] && b != [] && a[0].Some? && b[0].Some?
    && (a[0].value > b[0].value || (a[0].value == b[0].value && Above(a[1..], b[1..])))
  }

  /** The row comparison `a <= b` is true. */
  predicate AtMost(a: Key, b: Key) {
    if a == [] || b == [] then a == b
    else
      && a[0].Some? && b[0].Some?
      && (a[0].value < b[0].value || (a[0].value == b[0].value && AtMost(a[1..], b[1..])))
  }

  /** Up to `i` the keys are alike and hold no NULL, and there both have a value, the first one the greater. */
  ghost predicate ExceedsAt(a: Key, b: Key, i: nat) {
    && i < |a| && i < |b| && a[..i] == b[..i] && NoNull(a[..i])
    && a[i].Some? && b[i].Some? && a[i].value > b[i].value
  }

  /** The first column that differs decides the comparison. */
  lemma {:induction false} AboveByFirst(a: Key, b: Key)
    ensures Above(a, b) <==> exists i :: ExceedsAt(a, b, i)
  {
    if a != [] && b != [] {
      AboveByFirst(a[1..], b[1..]);
      if Above(a, b) {
        if a[0] == b[0] {
          var i: nat :| ExceedsAt(a[1..], b[1..], i);
          assert a[..i + 1] == [a[0]] + a[1..][..i] && b[..i + 1] == [b[0]] + b[1..][..i];
          assert ExceedsAt(a, b, i + 1);
        } else {
          assert ExceedsAt(a, b, 0);
        }
      }
      if i: nat :| ExceedsAt(a, b, i) && i > 0 {
        assert a[0] == a[..i][0] == b[..i][0] == b[0];
        assert a[1..][..i - 1] == a[..i][1..] && b[1..][..i - 1] == b[..i][1..];
        assert ExceedsAt(a[1..], b[1..], i - 1);
      }
    }
  }

  lemma {:induction false} AboveNotAtMost(a: Key, b: Key)
    requires Above(a, b)
    ensures !AtMost(a, b) && a != b
  {
    if a[0] == b[0] {
      AboveNotAtMost(a[1..], b[1..]);
    }
  }

  /** Without NULL exactly one of the two comparisons is true. */
  lemma {:induction false} OneHolds(a: Key, b: Key)
    requires |a| == |b| && NoNull(a) && NoNull(b)
    ensures Above(a, b) <==> !AtMost(a, b)
  {
    if a != [] {
      OneHolds(a[1..], b[1..]);
    }
  }

  lemma {:induction false} AboveTransitive(a: Key, b: Key, c: Key)
    requires Above(a, b) && Above(b, c)
    ensures Above(a, c)
  {
    if a[0] == b[0] == c[0] {
      AboveTransitive(a[1..], b[1..], c[1..]);
    }
  }

  lemma {:induction false} AtMostBelow(a: Key, b: Key, c: Key)
    requires AtMost(a, b) && Above(c, b)
    ensures AtMost(a, c)
  {
    if a[0] == b[0] == c[0] {
      AtMostBelow(a[1..], b[1..], c[1..]);
    }
  }

  lemma {:induction false} AtMostSelf(a: Key)
    requires NoNull(a)
    ensures AtMost(a, a)
  {
    if a != [] {
      AtMostSelf(a[1..]);
    }
  }

  // ---------- ORDER BY ----------

  predicate ValueLess(x: Option<int>, y: Option<int>, nullsFirst: bool) {
    if x.Some? && y.Some? then x.value < y.value else x != y && x.None? == nullsFirst
  }

  /** The ascending order, with NULL before or after every value as the backend has it. */
  predicate Sorts(a: Key, b: Key, nullsFirst: bool) {
    a == [] || (b != [] && (ValueLess(a[0], b[0], nullsFirst) || (a[0] == b[0] && Sorts(a[1..], b[1..], nullsFirst))))
  }

  /** Up to `i` the keys are alike, and there the first one ends, has the lesser value, or NULL where NULL comes first. */
  ghost predicate PrecedesAt(a: Key, b: Key, i: nat, nullsFirst: bool) {
    && i <= |a| && i < |b| && a[..i] == b[..i]
    && (i < |a| ==>
          match (a[i], b[i])
          case (Some(m), Some(n)) => m < n
          case (None, Some(_)) => nullsFirst
          case (Some(_), None) => !nullsFirst
          case (None, None) => false)
  }

  /** The first column that differs decides the order. */
  lemma {:induction false} SortsByFirst(a: Key, b: Key, nullsFirst: bool)
    ensures Sorts(a, b, nullsFirst) <==> a == b || exists i :: PrecedesAt(a, b, i, nullsFirst)
  {
    if a != [] && b != [] {
      SortsByFirst(a[1..], b[1..], nullsFirst);
      if Sorts(a, b, nullsFirst) && a != b {
        if a[0] == b[0] {
          assert a == [a[0]] + a[1..] && b == [b[0]] + b[1..];
          var i: nat :| PrecedesAt(a[1..], b[1..], i, nullsFirst);
          assert a[..i + 1] == [a[0]] + a[1..][..i] && b[..i + 1] == [b[0]] + b[1..][..i];
          assert PrecedesAt(a, b, i + 1, nullsFirst);
        } else {
          assert PrecedesAt(a, b, 0, nullsFirst);
        }
      }
      if i: nat :| PrecedesAt(a, b, i, nullsFirst) && i > 0 {
        assert a[0] == a[..i][0] == b[..i][0] == b[0];
        assert a[1..][..i - 1] == a[..i][1..] && b[1..][..i - 1] == b[..i][1..];
        assert PrecedesAt(a[1..], b[1..], i - 1, nullsFirst);
      }
    } else if a == [] && b != [] {
      assert PrecedesAt(a, b, 0, nullsFirst);
    }
  }

  lemma {:induction false} SortsTotal(a: Key, b: Key, nullsFirst: bool)
    ensures Sorts(a, b, nullsFirst) || Sorts(b, a, nullsFirst)
  {
    if a != [] && b != [] {
      SortsTotal(a[1..], b[1..], nullsFirst);
    }
  }

  lemma {:induction false} SortsTransitive(a: Key, b: Key, c: Key, nullsFirst: bool)
    requires Sorts(a, b, nullsFirst) && Sorts(b, c, nullsFirst)
    ensures Sorts(a, c, nullsFirst)
  {
    if a != [] && a[0] == b[0] == c[0] {
      SortsTransitive(a[1..], b[1..], c[1..], nullsFirst);
    }
  }

  lemma {:induction false} SortsAntisymmetric(a: Key, b: Key, nullsFirst: bool)
    requires Sorts(a, b, nullsFirst) && Sorts(b, a, nullsFirst)
    ensures a == b
  {
    if a != [] {
      SortsAntisymmetric(a[1..], b[1..], nullsFirst);
      assert a == [a[0]] + a[1..] && b == [b[0]] + b[1..];
    }
  }

  /** Where the comparison decides, the order agrees with it. */
  lemma {:induction false} AtMostSorts(a: Key, b: Key, nullsFirst: bool)
    requires AtMost(a, b)
    ensures Sorts(a, b, nullsFirst)
  {
    if a != [] {
      if a[0] == b[0] {
        AtMostSorts(a[1..], b[1..], nullsFirst);
      }
    }
  }

  lemma {:induction false} SortsAtMost(a: Key, b: Key, nullsFirst: bool)
    requires |a| == |b| && NoNull(a) && NoNull(b) && Sorts(a, b, nullsFirst)
    ensures AtMost(a, b)
  {
    if a != [] {
      if a[0] == b[0] {
        SortsAtMost(a[1..], b[1..], nullsFirst);
      }
    }
  }

  predicate Ascending(s: seq<Key>, nullsFirst: bool) {
    forall i, j :: 0 <= i < j < |s| ==> Sorts(s[i], s[j], nullsFirst)
  }

  function Insert(k: Key, s: seq<Key>, nullsFirst: bool): (r: seq<Key>)
    ensures |r| == |s| + 1 && multiset(r) == multiset(s) + multiset{k}
  {
    if s == [] || Sorts(k, s[0], nullsFirst) then [k] + s
    else
      assert s == [s[0]] + s[1..];
      [s[0]] + Insert(k, s[1..], nullsFirst)
  }

  lemma {:induction false} InsertAscends(k: Key, s: seq<Key>, nullsFirst: bool)
    requires Ascending(s, nullsFirst)
    ensures Ascending(Insert(k, s, nullsFirst), nullsFirst)
  {
    var r := Insert(k, s, nullsFirst);
    if s == [] {
    } else if Sorts(k, s[0], nullsFirst) {
      forall j | 0 < j < |r| ensures Sorts(r[0], r[j], nullsFirst) {
        if j > 1 {
          SortsTransitive(k, s[0], s[j - 1], nullsFirst);
        }
      }
    } else {
      var rest := Insert(k, s[1..], nullsFirst);
      InsertAscends(k, s[1..], nullsFirst);
      SortsTotal(k, s[0], nullsFirst);
      forall j | 0 < j < |r| ensures Sorts(r[0], r[j], nullsFirst) {
        assert rest[j - 1] in multiset(rest);
        assert rest[j - 1] == k || rest[j - 1] in multiset(s[1..]);
        if rest[j - 1] != k {
          assert rest[j - 1] in s[1..];
        }
      }
    }
  }

  function Sort(s: seq<Key>, nullsFirst: bool): (r: seq<Key>)
    ensures |r| == |s| && multiset(r) == multiset(s)
  {
    if s == [] then []
    else
      assert s == [s[0]] + s[1..];
      Insert(s[0], Sort(s[1..], nullsFirst), nullsFirst)
  }

  lemma {:induction false} SortAscends(s: seq<Key>, nullsFirst: bool)
    ensures Ascending(Sort(s, nullsFirst), nullsFirst)
  {
    if s != [] {
      SortAscends(s[1..], nullsFirst);
      InsertAscends(s[0], Sort(s[1..], nullsFirst), nullsFirst);
    }
  }

  // ---------- counting ----------

  /** How many of the keys are at most `high`. */
  function CountAtMost(s: seq<Key>, high: Key): (n: nat)
    ensures n <= |s|
  {
    if s == [] then 0 else (if AtMost(s[0], high) then 1 else 0) + CountAtMost(s[1..], high)
  }

  lemma {:induction false} CountInsert(k: Key, s: seq<Key>, high: Key, nullsFirst: bool)
    ensures CountAtMost(Insert(k, s, nullsFirst), high) == CountAtMost([k] + s, high)
  {
    assert ([k] + s)[1..] == s;
    if s != [] && !Sorts(k, s[0], nullsFirst) {
      CountInsert(k, s[1..], high, nullsFirst);
      assert ([k] + s[1..])[1..] == s[1..];
    }
  }

  lemma {:induction false} CountSort(s: seq<Key>, high: Key, nullsFirst: bool)
    ensures CountAtMost(Sort(s, nullsFirst), high) == CountAtMost(s, high)
  {
    if s != [] {
      CountSort(s[1..], high, nullsFirst);
      CountInsert(s[0], Sort(s[1..], nullsFirst), high, nullsFirst);
      assert s == [s[0]] + s[1..];
      assert ([s[0]] + Sort(s[1..], nullsFirst))[1..] == Sort(s[1..], nullsFirst);
    }
  }

  /** The first `n` keys are at most `high`, and none of the others. */
  lemma {:induction false} CountPrefix(s: seq<Key>, high: Key, n: nat)
    requires n <= |s|
    requires forall i :: 0 <= i < n ==> AtMost(s[i], high)
    ensures CountAtMost(s, high) >= n
    ensures (forall i :: n <= i < |s| ==> !AtMost(s[i], high)) ==> CountAtMost(s, high) == n
  {
    if s != [] {
      if n > 0 {
        CountPrefix(s[1..], high, n - 1);
      } else {
        CountPrefix(s[1..], high, 0);
      }
    }
  }
}
