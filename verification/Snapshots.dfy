/** Choosing the newest compatible snapshot of a database. */
module Snapshots {
  import opened Graphs
  import opened Lineages
  import opened Names
  import opened Options

  function OfBackend(registry: seq<Entry>, backend: string): seq<Entry> {
    if registry == [] then []
    else
      var last := registry[|registry| - 1];
      OfBackend(registry[..|registry| - 1], backend) + if last.backend == backend then [last] else []
  }

  lemma {:induction false} Filtered(registry: seq<Entry>, backend: string)
    ensures forall e :: e in OfBackend(registry, backend) <==> e in registry && e.backend == backend
    ensures Distinct(registry) ==> Distinct(OfBackend(registry, backend))
  {
    if registry != [] {
      var rest, last := registry[..|registry| - 1], registry[|registry| - 1];
      assert registry == rest + [last];
      Filtered(rest, backend);
      if Distinct(registry) {
        assert forall e :: e in rest ==> e.identity != last.identity;
      }
    }
  }

  predicate Parented(index: Index, x: string) {
    exists y :: y in index && x in index[y].parents
  }

  function Heads(index: Index): set<string> {
    set x | x in index && !Parented(index, x)
  }

  /** The snapshots the search looks at: everything the head descends from. */
  ghost predicate Candidate(index: Index, head: string, x: string) {
    Reaches(Lineage(index), head, x) && x in index && index[x].compatible
  }

  /** One line of descent: a single head with a sound ancestry, all of it loadable. */
  ghost predicate Sound(registry: seq<Entry>, backend: string, head: string) {
    var index := IndexOf(OfBackend(registry, backend));
    && Indexable(registry)
    && Heads(index) == {head}
    && AncestrySound(index, head)
    && forall x :: Reaches(Lineage(index), head, x) ==> x in index && index[x].intact
  }

  /** `newest` is compatible and every other compatible snapshot of the line is one of its ancestors. */
  ghost predicate Maximum(index: Index, head: string, newest: string) {
    && Candidate(index, head, newest)
    && forall x :: Candidate(index, head, x) ==> Reaches(Lineage(index), newest, x)
  }

  // ---------- the walk to an ancestor ----------

  /** How many entries the walk can still visit: one per path, since it keeps no visited set. */
  ghost function Paths(index: Index, order: seq<string>, pending: seq<string>, bound: nat): nat
    requires Ordered(Lineage(index), order) && Elements(order) <= index.Keys
    requires forall x :: x in pending ==> x in order && Position(order, x) < bound
    decreases bound, |pending|
  {
    if pending == [] then 0
    else
      var rest, last := pending[..|pending| - 1], pending[|pending| - 1];
      assert last in Elements(order);
      ParentsFall(index, order, last);
      1 + Paths(index, order, index[last].parents, Position(order, last)) + Paths(index, order, rest, bound)
  }

  lemma ParentsFall(index: Index, order: seq<string>, x: string)
    requires Ordered(Lineage(index), order) && x in order && x in index
    ensures forall p :: p in index[x].parents ==> p in order && Position(order, p) < Position(order, x)
  {
    forall p | p in index[x].parents ensures p in order && Position(order, p) < Position(order, x) {
      EdgeFalls(Lineage(index), order, x, p);
    }
  }

  lemma {:induction false} PathsBound(index: Index, order: seq<string>, pending: seq<string>, small: nat, large: nat)
    requires Ordered(Lineage(index), order) && Elements(order) <= index.Keys && small <= large
    requires forall x :: x in pending ==> x in order && Position(order, x) < small
    ensures Paths(index, order, pending, small) == Paths(index, order, pending, large)
    decreases |pending|
  {
    if pending != [] {
      PathsBound(index, order, pending[..|pending| - 1], small, large);
    }
  }

  lemma {:induction false} PathsJoin(index: Index, order: seq<string>, a: seq<string>, b: seq<string>, bound: nat)
    requires Ordered(Lineage(index), order) && Elements(order) <= index.Keys
    requires forall x :: x in a + b ==> x in order && Position(order, x) < bound
    ensures forall x :: x in a || x in b ==> x in a + b
    ensures Paths(index, order, a + b, bound) == Paths(index, order, a, bound) + Paths(index, order, b, bound)
    decreases |b|
  {
    assert forall x :: x in a || x in b ==> x in a + b;
    if b == [] {
      assert a + b == a;
    } else {
      var rest := b[..|b| - 1];
      assert (a + b)[..|a + b| - 1] == a + rest;
      PathsJoin(index, order, a, rest, bound);
    }
  }

  ghost predicate SomeReaches(g: Graph, pending: seq<string>, y: string) {
    exists x :: x in pending && Reaches(g, x, y)
  }

  /** Whether `candidate` descends from `identity`; walks every path, and still ends. */
  method Descends(index: Index, candidate: string, identity: string, ghost order: seq<string>) returns (found: bool)
    requires candidate in index && candidate in order
    requires Ordered(Lineage(index), order) && Elements(order) <= index.Keys
    ensures found <==> Above(Lineage(index), candidate, identity)
  {
    hide Ordered, Elements, Position;
    ghost var g, top := Lineage(index), |order|;
    var pending := index[candidate].parents;
    ParentsFall(index, order, candidate);
    while pending != []
      invariant forall x :: x in pending ==> x in order && Position(order, x) < top
      invariant SomeReaches(g, pending, identity) <==> Above(g, candidate, identity)
      decreases Paths(index, order, pending, top)
    {
      var parent, rest := pending[|pending| - 1], pending[..|pending| - 1];
      assert pending == rest + [parent];
      assert parent in order;
      Known(index, order, parent);
      if parent == identity {
        ReachesSelf(g, parent);
        return true;
      }
      ParentsFall(index, order, parent);
      PathsBound(index, order, index[parent].parents, Position(order, parent), top);
      PathsJoin(index, order, rest, index[parent].parents, top);
      UnfoldLast(index, rest, parent, identity);
      pending := rest + index[parent].parents;
    }
    found := false;
  }

  lemma Known(index: Index, order: seq<string>, x: string)
    requires Elements(order) <= index.Keys && x in order
    ensures x in index
  {
    assert x in Elements(order);
  }

  lemma UnfoldLast(index: Index, rest: seq<string>, parent: string, identity: string)
    requires parent in index && parent != identity
    ensures SomeReaches(Lineage(index), rest + [parent], identity)
      <==> SomeReaches(Lineage(index), rest + index[parent].parents, identity)
  {
    var g := Lineage(index);
    ReachesUnfold(g, parent, identity);
    if SomeReaches(g, rest + [parent], identity) {
      var x :| x in rest + [parent] && Reaches(g, x, identity);
      if x in rest {
        assert x in rest + index[parent].parents;
      } else {
        var z :| z in g[parent] && Reaches(g, z, identity);
        assert z in rest + index[parent].parents;
      }
    }
    if SomeReaches(g, rest + index[parent].parents, identity) {
      var x :| x in rest + index[parent].parents && Reaches(g, x, identity);
      if x in rest {
        assert x in rest + [parent];
      } else {
        assert x in g[parent];
        assert parent in rest + [parent];
      }
    }
  }

  // ---------- a unique maximal snapshot is the maximum ----------

  ghost predicate Maximal(index: Index, head: string, x: string) {
    Candidate(index, head, x) && forall y :: Candidate(index, head, y) ==> !Above(Lineage(index), y, x)
  }

  /** Climbing from a candidate to ever newer candidates ends at a maximal one. */
  lemma {:induction false} Climb(index: Index, head: string, order: seq<string>, x: string) returns (top: string)
    requires Ordered(Lineage(index), order) && head in order && Candidate(index, head, x)
    ensures Maximal(index, head, top) && Reaches(Lineage(index), top, x)
    ensures x in order
    decreases |order| - (InOrder(index, head, order, x); Position(order, x))
  {
    var g := Lineage(index);
    InOrder(index, head, order, x);
    if Maximal(index, head, x) {
      ReachesSelf(g, x);
      top := x;
    } else {
      var y :| Candidate(index, head, y) && Above(g, y, x);
      InOrder(index, head, order, y);
      AboveFalls(g, order, y, x);
      top := Climb(index, head, order, y);
      AboveIsReached(g, y, x);
      PathJoin(g, top, y, x);
    }
  }

  lemma InOrder(index: Index, head: string, order: seq<string>, x: string)
    requires Ordered(Lineage(index), order) && head in order && Candidate(index, head, x)
    ensures x in order
  {
    var g := Lineage(index);
    var p :| IsPath(g, p) && p[0] == head && p[|p| - 1] == x;
    ReachesFalls(g, order, head, x, p);
  }

  /** Without cycles, one maximal candidate is the same as a maximum. */
  lemma UniqueMaximalIsMaximum(index: Index, head: string, order: seq<string>, x: string)
    requires Ordered(Lineage(index), order) && head in order
    ensures Maximum(index, head, x) <==> forall y :: Maximal(index, head, y) <==> y == x
  {
    var g := Lineage(index);
    if Maximum(index, head, x) {
      InOrder(index, head, order, x);
      forall y | Candidate(index, head, y) ensures !Above(g, y, x) && (y != x ==> !Maximal(index, head, y)) {
        if Above(g, y, x) {
          JoinAbove(g, x, y, x);
          AboveFalls(g, order, x, x);
        }
        ReachesUnfold(g, x, y);
      }
    }
    if forall y :: Maximal(index, head, y) <==> y == x {
      assert Maximal(index, head, x);
      forall y | Candidate(index, head, y) ensures Reaches(g, x, y) {
        var top := Climb(index, head, order, y);
      }
    }
  }

  lemma MaximumIsUnique(index: Index, head: string, x: string, y: string)
    requires head in index && AncestrySound(index, head)
    requires Maximum(index, head, x) && Maximum(index, head, y)
    ensures x == y
  {
    var g := Lineage(index);
    assert MemberSound(index, index[head].backend, x);
    if x != y {
      ReachesUnfold(g, x, y);
      AboveJoin(g, x, y, x);
    }
  }

  // ---------- one backend's part of the registry ----------

  /** `own` is the part of `all` that belongs to one backend. */
  ghost predicate Part(all: Index, own: Index, backend: string) {
    && (forall x :: x in own <==> x in all && all[x].backend == backend)
    && forall x :: x in own ==> own[x] == all[x]
  }

  lemma OwnIsPart(registry: seq<Entry>, backend: string)
    requires Distinct(registry)
    ensures Part(IndexOf(registry), IndexOf(OfBackend(registry, backend)), backend)
  {
    hide IndexOf, OfBackend;
    var all, own := IndexOf(registry), IndexOf(OfBackend(registry, backend));
    Indexed(registry);
    Filtered(registry, backend);
    Indexed(OfBackend(registry, backend));
    forall x ensures x in own <==> x in all && all[x].backend == backend {
      if x in own {
        assert own[x] in OfBackend(registry, backend) && own[x] in registry;
      }
      if x in all && all[x].backend == backend {
        assert all[x] in OfBackend(registry, backend);
      }
    }
  }

  lemma PartPath(all: Index, own: Index, backend: string, p: seq<string>)
    requires Part(all, own, backend) && IsPath(Lineage(own), p)
    ensures IsPath(Lineage(all), p)
  {
    forall i | 0 <= i < |p| - 1 ensures p[i + 1] in Lineage(all)[p[i]] {
      assert p[i + 1] in Lineage(own)[p[i]];
    }
  }

  lemma PartReaches(all: Index, own: Index, backend: string, x: string, y: string)
    requires Part(all, own, backend)
    ensures Reaches(Lineage(own), x, y) ==> Reaches(Lineage(all), x, y)
  {
    if Reaches(Lineage(own), x, y) {
      var p :| IsPath(Lineage(own), p) && p[0] == x && p[|p| - 1] == y;
      PartPath(all, own, backend, p);
    }
  }

  lemma PartAbove(all: Index, own: Index, backend: string, x: string, y: string)
    requires Part(all, own, backend) && Above(Lineage(own), x, y)
    ensures Above(Lineage(all), x, y)
  {
    var z :| z in Lineage(own)[x] && Reaches(Lineage(own), z, y);
    PartReaches(all, own, backend, z, y);
    assert z in Lineage(all)[x];
  }

  /** In a set of entries that holds its own parents, paths stay inside. */
  ghost predicate Confined(index: Index, inside: set<string>) {
    inside <= index.Keys && forall x, p :: x in inside && p in index[x].parents ==> p in inside
  }

  lemma {:induction false} PathConfined(index: Index, inside: set<string>, p: seq<string>)
    requires Confined(index, inside) && IsPath(Lineage(index), p) && p[0] in inside
    ensures forall i :: 0 <= i < |p| ==> p[i] in inside
  {
    if |p| > 1 {
      assert p[0 + 1] in Lineage(index)[p[0]];
      var tail := p[1..];
      forall i | 0 <= i < |tail| - 1 ensures tail[i + 1] in Lineage(index)[tail[i]] {
        assert p[(i + 1) + 1] in Lineage(index)[p[i + 1]];
      }
      PathConfined(index, inside, tail);
      assert forall i :: 0 < i < |p| ==> p[i] == tail[i - 1];
    }
  }

  lemma ReachesConfined(all: Index, own: Index, backend: string, inside: set<string>, x: string, y: string)
    requires Part(all, own, backend) && Confined(own, inside) && x in inside
    ensures Reaches(Lineage(all), x, y) ==> y in inside && Reaches(Lineage(own), x, y)
  {
    if Reaches(Lineage(all), x, y) {
      var p :| IsPath(Lineage(all), p) && p[0] == x && p[|p| - 1] == y;
      PathConfined(all, inside, p);
      forall i | 0 <= i < |p| - 1 ensures p[i + 1] in Lineage(own)[p[i]] {
        assert p[i + 1] in Lineage(all)[p[i]];
      }
      assert IsPath(Lineage(own), p);
    }
  }

  lemma AboveConfined(all: Index, own: Index, backend: string, inside: set<string>, x: string, y: string)
    requires Part(all, own, backend) && Confined(own, inside) && x in inside && Above(Lineage(all), x, y)
    ensures Above(Lineage(own), x, y)
  {
    var z :| z in Lineage(all)[x] && Reaches(Lineage(all), z, y);
    ReachesConfined(all, own, backend, inside, z, y);
    assert z in Lineage(own)[x];
  }

  ghost function Reached(index: Index, start: string): set<string> {
    set x | x in index && Reaches(Lineage(index), start, x)
  }

  lemma SoundIsConfined(index: Index, start: string)
    requires start in index && AncestrySound(index, start)
    ensures Confined(index, Reached(index, start)) && start in Reached(index, start)
  {
    var g := Lineage(index);
    ReachesSelf(g, start);
    forall x, p | x in Reached(index, start) && p in index[x].parents ensures p in Reached(index, start) {
      assert MemberSound(index, index[start].backend, x);
      ReachesStep(g, start, x, p);
    }
  }

  /** The ancestry is sound within the backend exactly when it is sound within the database. */
  lemma SameAncestry(all: Index, own: Index, backend: string, start: string)
    requires Part(all, own, backend) && start in own
    ensures AncestrySound(own, start) <==> AncestrySound(all, start)
  {
    if AncestrySound(all, start) {
      WholeToPart(all, own, backend, start);
    }
    if AncestrySound(own, start) {
      PartToWhole(all, own, backend, start);
    }
  }

  lemma WholeToPart(all: Index, own: Index, backend: string, start: string)
    requires Part(all, own, backend) && start in own && AncestrySound(all, start)
    ensures AncestrySound(own, start)
  {
    SoundIsConfined(all, start);
    forall x | Reaches(Lineage(own), start, x) ensures MemberSound(own, backend, x) {
      PartReaches(all, own, backend, start, x);
      assert MemberSound(all, backend, x);
      forall p | p in all[x].parents ensures p in own {
        assert p in Reached(all, start);
        assert MemberSound(all, backend, p);
      }
      if Above(Lineage(own), x, x) {
        PartAbove(all, own, backend, x, x);
      }
    }
  }

  lemma PartToWhole(all: Index, own: Index, backend: string, start: string)
    requires Part(all, own, backend) && start in own && AncestrySound(own, start)
    ensures AncestrySound(all, start)
  {
    SoundIsConfined(own, start);
    var inside := Reached(own, start);
    forall x | Reaches(Lineage(all), start, x) ensures MemberSound(all, backend, x) {
      ReachesConfined(all, own, backend, inside, start, x);
      assert MemberSound(own, backend, x);
      if Above(Lineage(all), x, x) {
        AboveConfined(all, own, backend, inside, x, x);
      }
    }
  }

  lemma SoundBelow(index: Index, head: string, x: string)
    requires head in index && AncestrySound(index, head) && Reaches(Lineage(index), head, x)
    ensures x in index && AncestrySound(index, x)
  {
    assert MemberSound(index, index[head].backend, x);
    forall y | Reaches(Lineage(index), x, y) ensures MemberSound(index, index[x].backend, y) {
      PathJoin(Lineage(index), head, x, y);
      assert MemberSound(index, index[head].backend, y);
    }
  }

  // ---------- the search ----------

  ghost predicate Resolved(registry: seq<Entry>, backend: string, identity: string) {
    var index := IndexOf(registry);
    && Indexable(registry) && identity in index && AncestrySound(index, identity)
    && index[identity].backend == backend && index[identity].intact
  }

  /** Resolving a snapshot checks the whole registry's identities and the snapshot's ancestry. */
  method Resolve(registry: seq<Entry>, backend: string, identity: string) returns (ok: bool, ghost order: seq<string>)
    ensures ok <==> Resolved(registry, backend, identity)
    ensures ok ==> OrdersLine(IndexOf(registry), identity, order)
  {
    if !Indexable(registry) || identity !in IndexOf(registry) {
      return false, [];
    }
    var index := IndexOf(registry);
    ok, order := ValidateAncestry(index, identity);
    ok := ok && index[identity].backend == backend && index[identity].intact;
  }

  /** An order of the ancestry of `start` that puts parents before children. */
  ghost predicate OrdersLine(index: Index, start: string, order: seq<string>) {
    && Ordered(Lineage(index), order) && start in order
    && forall x :: x in order ==> Reaches(Lineage(index), start, x)
  }

  lemma OrdersPart(registry: seq<Entry>, backend: string, head: string, order: seq<string>)
    requires Distinct(registry) && OrdersLine(IndexOf(registry), head, order)
    requires var own := IndexOf(OfBackend(registry, backend)); head in own && AncestrySound(own, head)
    ensures
      var own := IndexOf(OfBackend(registry, backend));
      Ordered(Lineage(own), order) && head in order && Elements(order) <= own.Keys
  {
    hide IndexOf, OfBackend, AncestrySound;
    var all, own := IndexOf(registry), IndexOf(OfBackend(registry, backend));
    OwnIsPart(registry, backend);
    SoundIsConfined(own, head);
    forall x | x in order ensures x in own {
      ReachesConfined(all, own, backend, Reached(own, head), head, x);
    }
  }

  lemma AllResolved(registry: seq<Entry>, backend: string, head: string, names: seq<string>)
    requires
      var own := IndexOf(OfBackend(registry, backend));
      head in own && Heads(own) == {head} && Elements(names) == Reached(own, head)
    requires forall x :: x in names ==> Resolved(registry, backend, x)
    ensures Sound(registry, backend, head)
  {
    hide IndexOf, OfBackend, AncestrySound, Heads;
    var all, own := IndexOf(registry), IndexOf(OfBackend(registry, backend));
    ReachesSelf(Lineage(own), head);
    assert head in Elements(names);
    assert Resolved(registry, backend, head);
    OwnIsPart(registry, backend);
    SameAncestry(all, own, backend, head);
    forall x | Reaches(Lineage(own), head, x) ensures x in own && own[x].intact {
      assert x in Elements(names);
      assert Resolved(registry, backend, x);
    }
  }

  lemma NotResolved(registry: seq<Entry>, backend: string, head: string, x: string)
    requires
      var own := IndexOf(OfBackend(registry, backend));
      head in own && Heads(own) == {head} && x in Reached(own, head)
    requires !Resolved(registry, backend, x)
    ensures !Sound(registry, backend, head)
  {
    hide IndexOf, OfBackend, AncestrySound, Heads;
    var all, own := IndexOf(registry), IndexOf(OfBackend(registry, backend));
    if Sound(registry, backend, head) {
      OwnIsPart(registry, backend);
      SoundBelow(own, head, x);
      SameAncestry(all, own, backend, x);
    }
  }

  /** Everything the head descends from; fails at an entry with an unknown parent. */
  method Descend(index: Index, head: string) returns (reachable: Option<set<string>>)
    requires head in index
    ensures reachable.None? ==> !AncestrySound(index, head)
    ensures reachable.Some? ==> Confined(index, reachable.value) && reachable.value == Reached(index, head)
  {
    hide AncestrySound, Reaches, Above;
    ghost var g := Lineage(index);
    var visited, pending := {}, [head];
    ReachesSelf(g, head);
    while pending != []
      invariant visited <= index.Keys
      invariant forall x :: x in pending || x in visited ==> x in index && Reaches(g, head, x)
      invariant forall x, p :: x in visited && p in index[x].parents ==> p in visited || p in pending
      invariant head in visited || head in pending
      decreases index.Keys - visited, |pending|
    {
      var identity, rest := pending[|pending| - 1], pending[..|pending| - 1];
      assert pending == rest + [identity];
      if identity in visited {
        pending := rest;
      } else {
        var parents := index[identity].parents;
        if !forall p :: p in parents ==> p in index {
          UnknownParent(index, head, identity);
          return None;
        }
        forall p | p in parents ensures Reaches(g, head, p) {
          ReachesStep(g, head, identity, p);
        }
        pending, visited := rest + parents, visited + {identity};
      }
    }
    ReachedConfined(index, visited, head);
    reachable := Some(visited);
  }

  lemma ReachedConfined(index: Index, inside: set<string>, start: string)
    requires Confined(index, inside) && start in inside
    ensures Reached(index, start) <= inside
  {
    forall x | x in Reached(index, start) ensures x in inside {
      var p :| IsPath(Lineage(index), p) && p[0] == start && p[|p| - 1] == x;
      PathConfined(index, inside, p);
    }
  }

  lemma UnknownParent(index: Index, head: string, x: string)
    requires head in index && x in index && Reaches(Lineage(index), head, x)
    requires !forall p :: p in index[x].parents ==> p in index
    ensures !AncestrySound(index, head)
  {
    assert !MemberSound(index, index[head].backend, x);
  }

  /** Whether another compatible snapshot descends from this one. */
  method Superseded(index: Index, compatible: seq<string>, identity: string, ghost order: seq<string>) returns (newer: bool)
    requires Ordered(Lineage(index), order) && Elements(order) <= index.Keys
    requires forall x :: x in compatible ==> x in index && x in order
    ensures newer <==> exists x :: x in compatible && x != identity && Above(Lineage(index), x, identity)
  {
    hide Ordered, Elements, Above;
    newer := false;
    for i := 0 to |compatible|
      invariant newer <==> exists x :: x in compatible[..i] && x != identity && Above(Lineage(index), x, identity)
    {
      assert compatible[..i + 1] == compatible[..i] + [compatible[i]];
      if compatible[i] != identity {
        var found := Descends(index, compatible[i], identity, order);
        newer := newer || found;
      }
    }
    assert compatible[..|compatible|] == compatible;
  }

  /** The compatible snapshots that no other compatible one descends from. */
  method Newest(index: Index, head: string, compatible: seq<string>, ghost order: seq<string>) returns (newest: seq<string>)
    requires head in index && head in order && Ordered(Lineage(index), order) && Elements(order) <= index.Keys
    requires NoRepeats(compatible) && forall x :: x in compatible <==> Candidate(index, head, x)
    ensures NoRepeats(newest) && forall x :: x in newest <==> Maximal(index, head, x)
  {
    hide Ordered, Elements, Above;
    CandidatesOrdered(index, head, compatible, order);
    newest := [];
    for i := 0 to |compatible|
      invariant NoRepeats(newest)
      invariant forall x :: x in newest <==> x in compatible[..i] && Maximal(index, head, x)
    {
      var identity := compatible[i];
      assert compatible[..i + 1] == compatible[..i] + [identity];
      assert identity !in compatible[..i];
      assert identity in compatible;
      var newer := Superseded(index, compatible, identity, order);
      NotAboveItself(index, head, order, identity);
      assert !newer <==> Maximal(index, head, identity);
      if !newer {
        newest := newest + [identity];
      }
    }
    assert compatible[..|compatible|] == compatible;
  }

  lemma CandidatesOrdered(index: Index, head: string, compatible: seq<string>, order: seq<string>)
    requires head in order && Ordered(Lineage(index), order)
    requires forall x :: x in compatible <==> Candidate(index, head, x)
    ensures forall x :: x in compatible ==> x in index && x in order
  {
    forall x | x in compatible ensures x in index && x in order {
      InOrder(index, head, order, x);
    }
  }

  lemma NotAboveItself(index: Index, head: string, order: seq<string>, x: string)
    requires Ordered(Lineage(index), order) && head in order && Candidate(index, head, x)
    ensures !Above(Lineage(index), x, x)
  {
    InOrder(index, head, order, x);
    if Above(Lineage(index), x, x) {
      AboveFalls(Lineage(index), order, x, x);
    }
  }

  /** The index of one backend's snapshots; fails on an empty or repeated identity. */
  method IndexOwn(registry: seq<Entry>, backend: string) returns (index: Option<Index>)
    ensures index.None? ==> !Indexable(registry)
    ensures index.Some? ==> index.value == IndexOf(OfBackend(registry, backend))
  {
    hide IndexOf, OfBackend, Indexable;
    EmptyIndex(registry, backend);
    var own: Index := map[];
    for i := 0 to |registry|
      invariant own == IndexOf(OfBackend(registry[..i], backend))
    {
      var e := registry[i];
      IndexStep(registry, i, backend);
      if e.backend == backend {
        if e.identity == "" || e.identity in own {
          Repeated(registry, backend, i);
          return None;
        }
        own := own[e.identity := e];
      }
    }
    assert registry[..|registry|] == registry;
    index := Some(own);
  }

  lemma EmptyIndex(registry: seq<Entry>, backend: string)
    ensures IndexOf(OfBackend(registry[..0], backend)) == map[]
  {
  }

  lemma BackendPush(registry: seq<Entry>, e: Entry, backend: string)
    ensures OfBackend(registry + [e], backend) == OfBackend(registry, backend) + if e.backend == backend then [e] else []
  {
    assert (registry + [e])[..|registry|] == registry;
  }

  lemma IndexStep(registry: seq<Entry>, i: nat, backend: string)
    requires i < |registry|
    ensures
      var e, own := registry[i], IndexOf(OfBackend(registry[..i], backend));
      IndexOf(OfBackend(registry[..i + 1], backend)) == if e.backend == backend then own[e.identity := e] else own
  {
    hide IndexOf, OfBackend;
    var e := registry[i];
    assert registry[..i + 1] == registry[..i] + [e];
    BackendPush(registry[..i], e, backend);
    if e.backend == backend {
      IndexPush(OfBackend(registry[..i], backend), e);
    } else {
      assert OfBackend(registry[..i], backend) + [] == OfBackend(registry[..i], backend);
    }
  }

  lemma IndexPush(entries: seq<Entry>, e: Entry)
    ensures IndexOf(entries + [e]) == IndexOf(entries)[e.identity := e]
  {
    assert (entries + [e])[..|entries|] == entries;
  }

  lemma Repeated(registry: seq<Entry>, backend: string, i: nat)
    requires i < |registry|
    requires registry[i].identity == "" || registry[i].identity in IndexOf(OfBackend(registry[..i], backend))
    ensures !Indexable(registry)
  {
    var identity := registry[i].identity;
    if identity == "" {
      assert registry[i] in registry;
    } else {
      Filtered(registry[..i], backend);
      Indexed(OfBackend(registry[..i], backend));
      var e := IndexOf(OfBackend(registry[..i], backend))[identity];
      assert e in registry[..i];
      var j :| 0 <= j < i && registry[j] == e;
    }
  }

  /**
   * The newest compatible snapshot of one backend. It is found exactly when the registry holds one
   * sound line of descent and one of its compatible snapshots descends from all the others.
   */
  method LatestCompatible(registry: seq<Entry>, backend: string) returns (newest: Option<string>, ghost head: string)
    ensures newest.Some? ==>
      && Sound(registry, backend, head)
      && Maximum(IndexOf(OfBackend(registry, backend)), head, newest.value)
    ensures newest.None? ==> forall h, x ::
      Sound(registry, backend, h) ==> !Maximum(IndexOf(OfBackend(registry, backend)), h, x)
  {
    hide Maximum, Heads, AncestrySound, Candidate, OfBackend, IndexOf, Ordered, Elements;
    head := "";
    var indexed := IndexOwn(registry, backend);
    if indexed.None? {
      return None, head;
    }
    var index := indexed.value;
    var heads := Heads(index);
    if |heads| != 1 {
      return None, head;
    }
    var chosen: string :| chosen in heads;
    Only(heads, chosen);
    head := chosen;
    HeadKnown(index, chosen);
    var reached := Descend(index, chosen);
    if reached.None? {
      return None, head;
    }
    var compatible, order := ResolveAll(registry, backend, index, chosen, reached.value);
    if compatible.None? {
      return None, head;
    }
    var maximal := Newest(index, chosen, compatible.value, order);
    NewestIsMaximum(index, chosen, order, maximal);
    if |maximal| != 1 {
      return None, head;
    }
    newest := Some(maximal[0]);
  }

  lemma Only(s: set<string>, x: string)
    requires |s| == 1 && x in s
    ensures s == {x}
  {
    assert |s - {x}| == 0;
    assert s == {x} + (s - {x});
  }

  lemma HeadKnown(index: Index, head: string)
    requires head in Heads(index)
    ensures head in index
  {
  }

  lemma NewestIsMaximum(index: Index, head: string, order: seq<string>, newest: seq<string>)
    requires Ordered(Lineage(index), order) && head in order
    requires NoRepeats(newest) && forall x :: x in newest <==> Maximal(index, head, x)
    ensures forall x :: Maximum(index, head, x) <==> newest == [x]
  {
    hide Ordered, Maximum, Maximal;
    forall x ensures Maximum(index, head, x) <==> newest == [x] {
      UniqueMaximalIsMaximum(index, head, order, x);
      SingletonIff(newest, x);
    }
  }

  lemma SingletonIff(s: seq<string>, x: string)
    requires NoRepeats(s)
    ensures s == [x] <==> forall y :: y in s <==> y == x
  {
    assert |s| > 1 ==> s[0] != s[1];
    if forall y :: y in s <==> y == x {
      assert x in s;
      assert forall i :: 0 <= i < |s| ==> s[i] in s;
    }
    if s == [x] {
      assert s[0] == x;
    }
  }

  /** Resolves the whole line; the compatible snapshots in ascending order of their identities. */
  method ResolveAll(registry: seq<Entry>, backend: string, index: Index, head: string, reachable: set<string>)
    returns (compatible: Option<seq<string>>, ghost order: seq<string>)
    requires index == IndexOf(OfBackend(registry, backend))
    requires head in index && Heads(index) == {head} && reachable == Reached(index, head)
    ensures compatible.Some? <==> Sound(registry, backend, head)
    ensures compatible.Some? ==>
      && NoRepeats(compatible.value) && forall x :: x in compatible.value <==> Candidate(index, head, x)
    ensures compatible.Some? ==> head in order && Ordered(Lineage(index), order) && Elements(order) <= index.Keys
  {
    hide AncestrySound, OfBackend, IndexOf, Resolved, OrdersLine, Sound, Heads, Sorted, Elements, Reached, Candidate;
    order := [];
    var names := SortNames(reachable);
    NamesOfLine(index, head, names);
    var chosen: seq<string> := [];
    for i := 0 to |names|
      invariant forall x :: x in names[..i] ==> Resolved(registry, backend, x)
      invariant head in names[..i] ==> OrdersLine(IndexOf(registry), head, order)
      invariant NoRepeats(chosen) && forall x :: x in chosen <==> x in names[..i] && x in index && index[x].compatible
    {
      var ok, line := Resolve(registry, backend, names[i]);
      if !ok {
        NotResolved(registry, backend, head, names[i]);
        return None, order;
      }
      if names[i] == head {
        order := line;
      }
      assert names[..i + 1] == names[..i] + [names[i]];
      assert names[i] !in names[..i];
      if index[names[i]].compatible {
        chosen := chosen + [names[i]];
      }
    }
    assert names[..|names|] == names;
    AllResolved(registry, backend, head, names);
    LineOrdered(registry, backend, head, order);
    compatible := Some(chosen);
  }

  lemma NamesOfLine(index: Index, head: string, names: seq<string>)
    requires head in index && Sorted(names) && Elements(names) == Reached(index, head)
    ensures NoRepeats(names) && head in names
    ensures forall x :: x in names <==> x in Reached(index, head)
    ensures forall x :: x in names ==> x in index
    ensures forall x :: Candidate(index, head, x) <==> x in names && x in index && index[x].compatible
  {
    forall i, j | 0 <= i < j < |names| ensures names[i] != names[j] {
      BeforeIrreflexive(names[i]);
    }
    ReachesSelf(Lineage(index), head);
    assert forall x :: x in names <==> x in Elements(names);
  }

  lemma LineOrdered(registry: seq<Entry>, backend: string, head: string, order: seq<string>)
    requires Sound(registry, backend, head) && OrdersLine(IndexOf(registry), head, order)
    requires head in IndexOf(OfBackend(registry, backend))
    ensures head in order
    ensures Ordered(Lineage(IndexOf(OfBackend(registry, backend))), order)
    ensures Elements(order) <= IndexOf(OfBackend(registry, backend)).Keys
  {
    OrdersPart(registry, backend, head, order);
  }

  // ---------- a line outside the head's ancestry ----------

  ghost function Reverse(index: Index): (g: Graph)
    ensures Closed(g) && g.Keys == index.Keys
  {
    map x | x in index :: set y | y in index && x in index[y].parents
  }

  lemma ReverseCycle(index: Index, p: seq<string>)
    requires IsCycle(Reverse(index), p)
    ensures !Acyclic(Lineage(index))
  {
    var n := |p|;
    var q := seq(n, i requires 0 <= i < n => p[n - 1 - i]);
    forall i | 0 <= i < n - 1 ensures q[i + 1] in Lineage(index)[q[i]] {
      assert p[(n - 2 - i) + 1] in Reverse(index)[p[n - 2 - i]];
    }
    assert IsCycle(Lineage(index), q);
  }

  lemma AllReachedIsAcyclic(index: Index, head: string)
    requires head in index && AncestrySound(index, head) && Reached(index, head) == index.Keys
    ensures Acyclic(Lineage(index))
  {
    hide Above, Acyclic;
    var g := Lineage(index);
    forall x ensures !Above(g, x, x) {
      if x in index {
        assert x in Reached(index, head);
        assert MemberSound(index, index[head].backend, x);
      } else {
        NothingBelow(g, x);
      }
    }
    CyclicIffAboveItself(g);
  }

  lemma NothingBelow(g: Graph, x: string)
    requires x !in g
    ensures !Above(g, x, x)
  {
  }

  lemma LostIsCyclic(index: Index, head: string)
    requires Heads(index) == {head} && Reached(index, head) != index.Keys
    ensures !Acyclic(Lineage(index))
  {
    hide Acyclic, Reaches;
    var r, lost := Reverse(index), index.Keys - Reached(index, head);
    forall x | x in lost ensures r[x] * lost != {} {
      LostChild(index, head, x);
    }
    assert Reached(index, head) == index.Keys - lost;
    StuckHasCycle(r, lost);
    CycleExists(r);
    var p :| IsCycle(r, p);
    ReverseCycle(index, p);
  }

  lemma CycleExists(g: Graph)
    requires !Acyclic(g)
    ensures exists p :: IsCycle(g, p)
  {
  }

  /** The search sees every snapshot of the backend exactly when no lineage is cyclic anywhere. */
  lemma HeadReachesAll(registry: seq<Entry>, backend: string, head: string)
    requires Sound(registry, backend, head)
    ensures
      var index := IndexOf(OfBackend(registry, backend));
      Reached(index, head) == index.Keys <==> Acyclic(Lineage(index))
  {
    hide IndexOf, OfBackend, Acyclic, Reached, AncestrySound;
    var index := IndexOf(OfBackend(registry, backend));
    assert head in Heads(index);
    if Reached(index, head) == index.Keys {
      AllReachedIsAcyclic(index, head);
    } else {
      LostIsCyclic(index, head);
    }
  }

  lemma LostChild(index: Index, head: string, x: string)
    requires Heads(index) == {head} && x in index && x !in Reached(index, head)
    ensures Reverse(index)[x] * (index.Keys - Reached(index, head)) != {}
  {
    var g := Lineage(index);
    assert head in Heads(index);
    ReachesSelf(g, head);
    assert x !in Heads(index);
    var y :| y in index && x in index[y].parents;
    if Reaches(g, head, y) {
      ReachesStep(g, head, y, x);
    }
    assert y in Reverse(index)[x] * (index.Keys - Reached(index, head));
  }

  const LONE_HEAD := Entry("h", "b", 1, [], true, true)
  const CYCLE_X := Entry("x", "b", 1, ["y"], true, true)
  const CYCLE_Y := Entry("y", "b", 1, ["x"], true, true)
  const ISOLATED := [LONE_HEAD, CYCLE_X, CYCLE_Y]

  lemma EmptyPart(backend: string)
    ensures OfBackend([], backend) == [] && IndexOf([]) == map[]
  {
  }

  lemma IndexOfThree(a: Entry, b: Entry, c: Entry, backend: string)
    requires a.backend == b.backend == c.backend == backend
    ensures IndexOf(OfBackend([a, b, c], backend)) == map[][a.identity := a][b.identity := b][c.identity := c]
  {
    hide OfBackend, IndexOf;
    var all := [a, b, c];
    EmptyPart(backend);
    assert all[..0] == [] && all[..3] == all;
    IndexStep(all, 0, backend);
    IndexStep(all, 1, backend);
    IndexStep(all, 2, backend);
  }

  lemma LoneHead(index: Index)
    requires index == map["h" := LONE_HEAD, "x" := CYCLE_X, "y" := CYCLE_Y]
    ensures Heads(index) == {"h"} && AncestrySound(index, "h")
    ensures forall z :: Reaches(Lineage(index), "h", z) <==> z == "h"
  {
    assert index["h"].parents == [] && "y" in index["x"].parents && "x" in index["y"].parents;
    forall z ensures Reaches(Lineage(index), "h", z) <==> z == "h" {
      ReachesUnfold(Lineage(index), "h", z);
    }
    assert MemberSound(index, "b", "h");
  }

  /**
   * Two compatible snapshots that name each other as parents have children, so neither is a head, and
   * the walk from the only head never meets them: the search answers as if they did not exist.
   */
  lemma IsolatedCycleIgnored()
    ensures
      var index := IndexOf(OfBackend(ISOLATED, "b"));
      && Sound(ISOLATED, "b", "h") && Maximum(index, "h", "h")
      && "x" in index && index["x"].compatible && !Reaches(Lineage(index), "h", "x")
  {
    hide IndexOf, OfBackend, Heads, AncestrySound, Reaches;
    var index := IndexOf(OfBackend(ISOLATED, "b"));
    IndexOfThree(LONE_HEAD, CYCLE_X, CYCLE_Y, "b");
    LoneHead(index);
    assert Indexable(ISOLATED);
    assert Candidate(index, "h", "h");
  }
}