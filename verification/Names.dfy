/** Identifiers in the order Python sorts strings. */
module Names {
  import opened Graphs

  /** Python's order on strings: code point by code point, a prefix first. */
  predicate Before(a: string, b: string) {
    if b == [] then false
    else if a == [] then true
    else a[0] < b[0] || (a[0] == b[0] && Before(a[1..], b[1..]))
  }

  lemma {:induction false} BeforeTotal(a: string, b: string)
    ensures a == b || Before(a, b) || Before(b, a)
  {
    if a != [] && b != [] && a[0] == b[0] {
      BeforeTotal(a[1..], b[1..]);
    }
  }

  lemma {:induction false} BeforeTransitive(a: string, b: string, c: string)
    requires Before(a, b) && Before(b, c)
    ensures Before(a, c)
  {
    if a != [] && a[0] == b[0] && b[0] == c[0] {
      BeforeTransitive(a[1..], b[1..], c[1..]);
    }
  }

  lemma {:induction false} BeforeIrreflexive(a: string)
    ensures !Before(a, a)
  {
    if a != [] {
      BeforeIrreflexive(a[1..]);
    }
  }

  /** Up to `i` the names are alike, and there the first one ends, or has the smaller code point. */
  ghost predicate DiffersAt(a: string, b: string, i: nat) {
    i <= |a| && i < |b| && a[..i] == b[..i] && (i == |a| || a[i] < b[i])
  }

  /** The first place where two names differ decides. */
  lemma {:induction false} BeforeByFirst(a: string, b: string)
    ensures Before(a, b) <==> exists i :: DiffersAt(a, b, i)
  {
    if a != [] && b != [] {
      BeforeByFirst(a[1..], b[1..]);
      if Before(a, b) {
        if a[0] < b[0] {
          assert DiffersAt(a, b, 0);
        } else {
          var i: nat :| DiffersAt(a[1..], b[1..], i);
          assert a[..i + 1] == [a[0]] + a[1..][..i] && b[..i + 1] == [b[0]] + b[1..][..i];
          assert DiffersAt(a, b, i + 1);
        }
      }
      if i: nat :| DiffersAt(a, b, i) && i > 0 {
        assert a[0] == a[..i][0] == b[..i][0] == b[0];
        assert a[1..][..i - 1] == a[..i][1..] && b[1..][..i - 1] == b[..i][1..];
        assert DiffersAt(a[1..], b[1..], i - 1);
      }
    } else if b != [] {
      assert DiffersAt(a, b, 0);
    }
  }

  predicate Sorted(s: seq<string>) {
    forall i, j :: 0 <= i < j < |s| ==> Before(s[i], s[j])
  }

  method Least(names: set<string>) returns (least: string)
    requires names != {}
    ensures least in names && forall x :: x in names ==> x == least || Before(least, x)
  {
    least :| least in names;
    var todo := names - {least};
    while todo != {}
      invariant todo <= names && least in names
      invariant forall x :: x in names - todo ==> x == least || Before(least, x)
    {
      var x :| x in todo;
      BeforeTotal(x, least);
      if Before(x, least) {
        forall y | y in names - todo ensures y == x || Before(x, y) {
          if y != least { BeforeTransitive(x, least, y); }
        }
        least := x;
      }
      todo := todo - {x};
    }
  }

  /** The names of a set in ascending order. */
  method SortNames(names: set<string>) returns (s: seq<string>)
    ensures Sorted(s) && Elements(s) == names
  {
    s := [];
    var todo := names;
    while todo != {}
      invariant todo <= names && Elements(s) == names - todo
      invariant Sorted(s) && forall x, y :: x in s && y in todo ==> Before(x, y)
    {
      var x := Least(todo);
      assert Elements(s + [x]) == Elements(s) + {x};
      forall y, z | y in s + [x] && z in todo - {x} ensures Before(y, z) {
        if y !in s { assert y == x; }
      }
      s, todo := s + [x], todo - {x};
    }
  }
}
