/** Ordering the targets of a transition along their foreign keys. */
module Ordering {
  import opened Graphs
  import opened Names
  import opened Options

  /** How long a chain of dependencies can get below each target. */
  type Depths = map<string, nat>

  /** `depth` is one more than the greatest depth among the targets it needs, 0 when it needs none. */
  ghost predicate IsDepth(g: Graph, depths: Depths, x: string)
    requires x in g && x in depths
  {
    && (forall y :: y in g[x] ==> y in depths && depths[y] < depths[x])
    && (depths[x] > 0 ==> exists y :: y in g[x] && y in depths && depths[y] + 1 == depths[x])
  }

  ghost predicate AreDepths(g: Graph, depths: Depths) {
    depths.Keys <= g.Keys && forall x :: x in depths ==> IsDepth(g, depths, x)
  }

  predicate Earlier(depths: Depths, a: string, b: string)
    requires a in depths && b in depths
  {
    depths[a] < depths[b] || (depths[a] == depths[b] && Before(a, b))
  }

  /** Ascending by depth, then by name. */
  ghost predicate ByDepth(depths: Depths, order: seq<string>) {
    && (forall i :: 0 <= i < |order| ==> order[i] in depths)
    && forall i, j :: 0 <= i < j < |order| ==> Earlier(depths, order[i], order[j])
  }

  lemma NeedsAreDeeper(g: Graph, depths: Depths, x: string)
    requires AreDepths(g, depths) && x in depths
    ensures forall y :: y in g[x] ==> y in depths && depths[y] < depths[x]
  {
    assert IsDepth(g, depths, x);
  }

  /** Such an order repeats nothing and puts every target after all it needs. */
  lemma ByDepthIsOrdered(g: Graph, depths: Depths, order: seq<string>)
    requires AreDepths(g, depths) && ByDepth(depths, order) && Elements(order) == depths.Keys
    ensures NoRepeats(order) && Ordered(g, order)
  {
    hide AreDepths, IsDepth;
    forall i, j | 0 <= i < j < |order| ensures order[i] != order[j] {
      hide Elements;
      assert Earlier(depths, order[i], order[j]);
      BeforeIrreflexive(order[i]);
    }
    forall i, x | 0 <= i < |order| && order[i] in g && x in g[order[i]] ensures x in order[..i] {
      NeedsAreDeeper(g, depths, order[i]);
      ShallowerIsEarlier(depths, order, i, x);
    }
  }

  lemma ShallowerIsEarlier(depths: Depths, order: seq<string>, i: nat, x: string)
    requires ByDepth(depths, order) && Elements(order) == depths.Keys && i < |order|
    requires x in depths && depths[x] < depths[order[i]]
    ensures x in order[..i]
  {
    hide Before;
    assert x in Elements(order);
    var j :| 0 <= j < |order| && order[j] == x;
    assert i < j ==> Earlier(depths, order[i], order[j]);
    assert order[..i][j] == x;
  }

  /** Depths are unique, so the dependencies alone settle the order. */
  lemma {:induction false} DepthUnique(g: Graph, a: Depths, b: Depths, x: string)
    requires AreDepths(g, a) && AreDepths(g, b) && a.Keys == b.Keys == g.Keys && x in g
    ensures a[x] == b[x]
    decreases a[x]
  {
    assert IsDepth(g, a, x) && IsDepth(g, b, x);
    forall y | y in g[x] ensures a[y] == b[y] {
      DepthUnique(g, a, b, y);
    }
  }

  lemma BeforeAsymmetric(a: string, b: string)
    ensures !(Before(a, b) && Before(b, a))
  {
    if Before(a, b) && Before(b, a) {
      BeforeTransitive(a, b, a);
      BeforeIrreflexive(a);
    }
  }

  lemma {:induction false} ByDepthUnique(depths: Depths, p: seq<string>, q: seq<string>)
    requires ByDepth(depths, p) && ByDepth(depths, q) && Elements(p) == Elements(q)
    ensures p == q
  {
    if q != [] {
      assert q[0] in Elements(q);
    }
    if p != [] {
      assert p[0] in Elements(p);
      assert p[0] in q && q[0] in p;
      var i :| 0 <= i < |q| && q[i] == p[0];
      var j :| 0 <= j < |p| && p[j] == q[0];
      BeforeAsymmetric(p[0], q[0]);
      assert p[0] == q[0];
      TailElements(depths, p);
      TailElements(depths, q);
      ByDepthUnique(depths, p[1..], q[1..]);
      assert p == [p[0]] + p[1..] && q == [q[0]] + q[1..];
    }
  }

  /** The dependencies settle the order: neither set iteration nor input order can change it. */
  lemma OrderIsSettled(g: Graph, a: Depths, p: seq<string>, b: Depths, q: seq<string>)
    requires AreDepths(g, a) && ByDepth(a, p) && Elements(p) == a.Keys == g.Keys
    requires AreDepths(g, b) && ByDepth(b, q) && Elements(q) == b.Keys == g.Keys
    ensures p == q
  {
    hide AreDepths, ByDepth;
    forall x | x in g ensures a[x] == b[x] {
      DepthUnique(g, a, b, x);
    }
    assert a == b;
    ByDepthUnique(a, p, q);
  }

  lemma TailElements(depths: Depths, p: seq<string>)
    requires ByDepth(depths, p) && p != []
    ensures ByDepth(depths, p[1..]) && Elements(p[1..]) == Elements(p) - {p[0]}
  {
    forall k | 0 < k < |p| ensures p[k] != p[0] {
      BeforeIrreflexive(p[0]);
      assert Earlier(depths, p[0], p[k]);
    }
    forall x | x in Elements(p) - {p[0]} ensures x in p[1..] {
      var k :| 0 <= k < |p| && p[k] == x;
      assert p[1..][k - 1] == x;
    }
  }

  /**
   * Layer by layer, each layer in ascending order. The loop gives up exactly when the dependencies
   * contain a cycle; otherwise the result holds every target once, sorted by depth and name.
   */
  method OrderTargets(dependencies: Graph) returns (ordered: Option<seq<string>>, ghost depths: Depths)
    requires Closed(dependencies)
    ensures ordered.Some? <==> Acyclic(dependencies)
    ensures ordered.Some? ==>
      && Elements(ordered.value) == dependencies.Keys == depths.Keys
      && AreDepths(dependencies, depths) && ByDepth(depths, ordered.value)
      && NoRepeats(ordered.value) && Ordered(dependencies, ordered.value)
  {
    hide AreDepths, ByDepth, Elements, Waits, Sorted, Ordered, NoRepeats, Acyclic;
    EmptyStart(dependencies);
    var targets: seq<string> := [];
    var remaining := dependencies.Keys;
    depths := map[];
    ghost var layer: nat := 0;
    while remaining != {}
      invariant remaining <= dependencies.Keys && depths.Keys == dependencies.Keys - remaining
      invariant Elements(targets) == depths.Keys
      invariant AreDepths(dependencies, depths) && ByDepth(depths, targets)
      invariant forall x :: x in depths ==> depths[x] < layer
      invariant layer > 0 ==> forall x :: x in remaining ==> Waits(dependencies, remaining, depths, layer, x)
    {
      var free := set name | name in remaining && dependencies[name] * remaining == {};
      if free == {} {
        forall x | x in remaining ensures dependencies[x] * remaining != {} {
          assert x !in free;
        }
        StuckHasCycle(dependencies, remaining);
        return None, depths;
      }
      var ready := SortNames(free);
      AppendLayer(depths, targets, ready, layer);
      depths := DeepenLayer(dependencies, remaining, depths, layer, free);
      targets := targets + ready;
      remaining, layer := remaining - free, layer + 1;
    }
    ByDepthIsOrdered(dependencies, depths, targets);
    OrderedIsAcyclic(dependencies, targets);
    ordered := Some(targets);
  }

  lemma EmptyStart(g: Graph)
    ensures AreDepths(g, map[]) && ByDepth(map[], []) && Elements([]) == {}
  {
  }

  /** `x` needs a target that remains, or one of the layer before. */
  ghost predicate Waits(g: Graph, remaining: set<string>, depths: Depths, layer: nat, x: string) {
    x in g && exists y :: y in g[x] && (y in remaining || (y in depths && depths[y] + 1 == layer))
  }

  /** The targets that are free now are exactly those of depth `layer`. */
  lemma DeepenLayer(g: Graph, remaining: set<string>, depths: Depths, layer: nat, free: set<string>)
    returns (deeper: Depths)
    requires Closed(g) && remaining <= g.Keys && depths.Keys == g.Keys - remaining && AreDepths(g, depths)
    requires forall x :: x in depths ==> depths[x] < layer
    requires layer > 0 ==> forall x :: x in remaining ==> Waits(g, remaining, depths, layer, x)
    requires free == set x | x in remaining && g[x] * remaining == {}
    ensures deeper == depths + map x | x in free :: layer
    ensures deeper.Keys == g.Keys - (remaining - free) && AreDepths(g, deeper)
    ensures forall x :: x in remaining - free ==> Waits(g, remaining - free, deeper, layer + 1, x)
  {
    deeper := depths + map x | x in free :: layer;
    forall x | x in deeper ensures IsDepth(g, deeper, x) {
      if x in free {
        forall y | y in g[x] ensures y in depths {
          assert y !in g[x] * remaining && y in g.Keys;
        }
        if layer > 0 {
          assert Waits(g, remaining, depths, layer, x);
          var y :| y in g[x] && (y in remaining || (y in depths && depths[y] + 1 == layer));
          assert y in g[x] && y in deeper && deeper[y] + 1 == deeper[x];
        }
      } else {
        assert IsDepth(g, depths, x);
        forall y | y in g[x] ensures y in deeper && deeper[y] == depths[y] {
          assert y !in free;
        }
      }
    }
    forall x | x in remaining - free ensures Waits(g, remaining - free, deeper, layer + 1, x) {
      var y :| y in g[x] * remaining;
      assert y in g[x];
    }
  }

  lemma AppendLayer(depths: Depths, targets: seq<string>, ready: seq<string>, layer: nat)
    requires forall x :: x in depths ==> depths[x] < layer
    requires Elements(ready) !! depths.Keys
    requires ByDepth(depths, targets) && Sorted(ready)
    ensures ByDepth(depths + map x | x in Elements(ready) :: layer, targets + ready)
    ensures Elements(targets + ready) == Elements(targets) + Elements(ready)
  {
    var all, deeper := targets + ready, depths + map x | x in Elements(ready) :: layer;
    forall i | 0 <= i < |all| ensures all[i] in deeper && deeper[all[i]] == if i < |targets| then depths[all[i]] else layer {
      if i < |targets| {
        assert all[i] == targets[i];
        assert targets[i] !in Elements(ready);
      } else {
        assert all[i] in Elements(ready);
      }
    }
    forall i, j | 0 <= i < j < |all| ensures Earlier(deeper, all[i], all[j]) {
      if j < |targets| {
        assert Earlier(depths, targets[i], targets[j]);
      } else if i >= |targets| {
        assert Before(ready[i - |targets|], ready[j - |targets|]);
      }
    }
  }
}
