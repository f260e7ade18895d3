/** Finite directed graphs: paths, cycles, and orders. An edge leads from a node to what it needs. */
module Graphs {

  type Graph = map<string, set<string>>

  predicate Closed(g: Graph) {
    forall x :: x in g ==> g[x] <= g.Keys
  }

  ghost predicate IsPath(g: Graph, p: seq<string>) {
    && p != []
    && (forall i :: 0 <= i < |p| ==> p[i] in g)
    && forall i :: 0 <= i < |p| - 1 ==> p[i + 1] in g[p[i]]
  }

  ghost predicate IsCycle(g: Graph, p: seq<string>) {
    IsPath(g, p) && p[0] in g[p[|p| - 1]]
  }

  ghost predicate Acyclic(g: Graph) {
    !exists p :: IsCycle(g, p)
  }

  ghost predicate NoRepeats(s: seq<string>) {
    forall i, j :: 0 <= i < j < |s| ==> s[i] != s[j]
  }

  ghost function Elements(s: seq<string>): set<string> {
    set x | x in s
  }

  lemma {:induction false} RepeatFreeSize(s: seq<string>)
    requires NoRepeats(s)
    ensures |Elements(s)| == |s|
  {
    if s != [] {
      var last := |s| - 1;
      RepeatFreeSize(s[..last]);
      assert Elements(s) == Elements(s[..last]) + {s[last]};
      assert s[last] !in Elements(s[..last]);
    }
  }

  lemma {:induction false} SubsetSize(a: set<string>, b: set<string>)
    requires a <= b
    ensures |a| <= |b|
    ensures |a| == |b| ==> a == b
  {
    if a != {} {
      var x :| x in a;
      SubsetSize(a - {x}, b - {x});
    }
  }

  /** More places than values: some value comes twice. */
  lemma Pigeonhole(s: seq<string>, values: set<string>)
    requires Elements(s) <= values && |s| > |values|
    ensures exists i, j :: 0 <= i < j < |s| && s[i] == s[j]
  {
    if NoRepeats(s) {
      RepeatFreeSize(s);
      SubsetSize(Elements(s), values);
    }
  }

  /** Nodes that each need another of them can be walked forever. */
  lemma {:induction false} LongWalk(g: Graph, stuck: set<string>, n: nat) returns (p: seq<string>)
    requires Closed(g) && stuck <= g.Keys && stuck != {}
    requires forall x :: x in stuck ==> g[x] * stuck != {}
    ensures |p| == n + 1 && IsPath(g, p) && Elements(p) <= stuck
  {
    if n == 0 {
      var x :| x in stuck;
      p := [x];
    } else {
      p := LongWalk(g, stuck, n - 1);
      var x := p[|p| - 1];
      assert x in Elements(p);
      var y :| y in g[x] * stuck;
      p := p + [y];
    }
  }

  /** So they contain a cycle. */
  lemma StuckHasCycle(g: Graph, stuck: set<string>)
    requires Closed(g) && stuck <= g.Keys && stuck != {}
    requires forall x :: x in stuck ==> g[x] * stuck != {}
    ensures !Acyclic(g)
  {
    var p := LongWalk(g, stuck, |stuck|);
    Pigeonhole(p, stuck);
    var i, j :| 0 <= i < j < |p| && p[i] == p[j];
    var cycle := p[i..j];
    assert forall k :: 0 <= k < |cycle| ==> cycle[k] == p[i + k];
    assert p[j] in g[p[j - 1]] by {
      assert p[(j - 1) + 1] in g[p[j - 1]];
    }
    assert IsPath(g, cycle);
    assert IsCycle(g, cycle);
  }

  /** Every node comes after all it needs. */
  ghost predicate Ordered(g: Graph, order: seq<string>) {
    forall i, x :: 0 <= i < |order| && order[i] in g && x in g[order[i]] ==> x in order[..i]
  }

  /** Around a cycle every node has another one earlier in the order. */
  lemma EarlierOnCycle(g: Graph, order: seq<string>, p: seq<string>, i: nat)
    requires Ordered(g, order) && IsCycle(g, p) && i < |order| && order[i] in p
    ensures exists h :: 0 <= h < i && order[h] in p
  {
    hide IsCycle, Ordered;
    var k :| 0 <= k < |p| && p[k] == order[i];
    var needed := NextOnCycle(g, p, k);
    NeededEarlier(g, order, i, needed);
    var h :| 0 <= h < i && order[..i][h] == needed;
    assert order[h] == needed;
  }

  lemma NextOnCycle(g: Graph, p: seq<string>, k: nat) returns (needed: string)
    requires IsCycle(g, p) && k < |p|
    ensures needed in p && p[k] in g && needed in g[p[k]]
  {
    needed := if k < |p| - 1 then p[k + 1] else p[0];
  }

  lemma NeededEarlier(g: Graph, order: seq<string>, i: nat, needed: string)
    requires Ordered(g, order) && i < |order| && order[i] in g && needed in g[order[i]]
    ensures needed in order[..i]
  {
  }

  /** An order of all nodes rules cycles out. */
  lemma OrderedIsAcyclic(g: Graph, order: seq<string>)
    requires Ordered(g, order) && Elements(order) == g.Keys
    ensures Acyclic(g)
  {
    forall p ensures !IsCycle(g, p) {
      if IsCycle(g, p) {
        InElements(g, order, p);
        var i := FirstOf(order, p);
        EarlierOnCycle(g, order, p, i);
      }
    }
  }

  lemma InElements(g: Graph, order: seq<string>, p: seq<string>)
    requires IsPath(g, p) && Elements(order) == g.Keys
    ensures forall k :: 0 <= k < |p| ==> p[k] in order
  {
    forall k | 0 <= k < |p| ensures p[k] in order {
      assert p[k] in Elements(order);
    }
  }

  /** The first position of an order that holds a node of a path. */
  lemma FirstOf(order: seq<string>, p: seq<string>) returns (i: nat)
    requires p != [] && forall k :: 0 <= k < |p| ==> p[k] in order
    ensures i < |order| && order[i] in p
    ensures forall h :: 0 <= h < i ==> order[h] !in p
  {
    i := 0;
    var k :| 0 <= k < |order| && order[k] == p[0];
    while order[i] !in p
      invariant i <= k < |order|
      invariant forall h :: 0 <= h < i ==> order[h] !in p
      decreases k - i
    {
      i := i + 1;
    }
  }

  // ---------- reachability ----------

  ghost predicate Reaches(g: Graph, x: string, y: string) {
    exists p :: IsPath(g, p) && p[0] == x && p[|p| - 1] == y
  }

  /** `y` can be reached from `x` by at least one edge. */
  ghost predicate Above(g: Graph, x: string, y: string) {
    x in g && exists z :: z in g[x] && Reaches(g, z, y)
  }

  lemma ReachesSelf(g: Graph, x: string)
    requires x in g
    ensures Reaches(g, x, x)
  {
    assert IsPath(g, [x]);
  }

  /** The first step of a path. */
  lemma ReachesUnfold(g: Graph, x: string, y: string)
    ensures Reaches(g, x, y) <==> x in g && (x == y || Above(g, x, y))
  {
    if Reaches(g, x, y) {
      var p :| IsPath(g, p) && p[0] == x && p[|p| - 1] == y;
      if |p| > 1 {
        var tail := p[1..];
        assert IsPath(g, tail) && tail[0] == p[1] && tail[|tail| - 1] == y;
        assert p[0 + 1] in g[p[0]];
      }
    }
    if x in g && x == y {
      ReachesSelf(g, x);
    }
    if Above(g, x, y) {
      var z :| z in g[x] && Reaches(g, z, y);
      var p :| IsPath(g, p) && p[0] == z && p[|p| - 1] == y;
      var longer := [x] + p;
      assert IsPath(g, longer) && longer[0] == x && longer[|longer| - 1] == y;
    }
  }

  lemma {:induction false} PathJoin(g: Graph, x: string, y: string, z: string)
    requires Reaches(g, x, y) && Reaches(g, y, z)
    ensures Reaches(g, x, z)
  {
    var p :| IsPath(g, p) && p[0] == x && p[|p| - 1] == y;
    var q :| IsPath(g, q) && q[0] == y && q[|q| - 1] == z;
    var r := p + q[1..];
    assert r[|p| - 1] == q[0];
    assert forall i :: 0 <= i < |p| ==> r[i] == p[i];
    assert forall i :: |p| - 1 <= i < |r| ==> r[i] == q[i - |p| + 1];
    assert IsPath(g, r) && r[0] == x && r[|r| - 1] == z;
  }

  /** In an acyclic graph some node of any set needs none of the others. */
  lemma SinkExists(g: Graph, nodes: set<string>) returns (x: string)
    requires Closed(g) && Acyclic(g) && nodes <= g.Keys && nodes != {}
    ensures x in nodes && g[x] * nodes == {}
  {
    if forall x :: x in nodes ==> g[x] * nodes != {} {
      StuckHasCycle(g, nodes);
      assert false;
    }
    x :| x in nodes && g[x] * nodes == {};
  }

  /** Appending a node all of whose needs are already there keeps an order. */
  lemma OrderedAppend(g: Graph, order: seq<string>, x: string)
    requires Ordered(g, order) && (x in g ==> g[x] <= Elements(order))
    ensures Ordered(g, order + [x])
    ensures Elements(order + [x]) == Elements(order) + {x}
  {
    var longer := order + [x];
    forall i, y | 0 <= i < |longer| && longer[i] in g && y in g[longer[i]] ensures y in longer[..i] {
      if i < |order| {
        assert y in order[..i] && longer[..i] == order[..i];
      } else {
        assert y in Elements(order) && longer[..i] == order;
      }
    }
  }

  /** Ordering the nodes of an acyclic graph, sinks first. */
  lemma OrderFrom(g: Graph, nodes: set<string>, done: seq<string>) returns (order: seq<string>)
    requires Closed(g) && Acyclic(g) && Ordered(g, done)
    requires nodes <= g.Keys && Elements(done) == g.Keys - nodes
    ensures Ordered(g, order) && Elements(order) == g.Keys
    decreases nodes
  {
    hide Ordered, Acyclic;
    if nodes == {} {
      order := done;
    } else {
      var x := SinkExists(g, nodes);
      forall y | y in g[x] ensures y in Elements(done) {
        assert y in g.Keys && y !in g[x] * nodes;
      }
      OrderedAppend(g, done, x);
      order := OrderFrom(g, nodes - {x}, done + [x]);
    }
  }

  /** A graph can be ordered exactly when it has no cycle. */
  lemma AcyclicIffOrdered(g: Graph)
    requires Closed(g)
    ensures Acyclic(g) <==> exists order :: Ordered(g, order) && Elements(order) == g.Keys
  {
    if Acyclic(g) {
      var order := OrderFrom(g, g.Keys, []);
    }
    forall order | Ordered(g, order) && Elements(order) == g.Keys ensures Acyclic(g) {
      OrderedIsAcyclic(g, order);
    }
  }

  /** The position of a node in an order: a measure that falls along every edge. */
  function Position(order: seq<string>, x: string): (i: nat)
    requires x in order
    ensures i < |order| && order[i] == x && x !in order[..i]
  {
    if order[0] == x then 0
    else
      var i := 1 + Position(order[1..], x);
      assert order[..i] == [order[0]] + order[1..][..i - 1];
      i
  }

  lemma EdgeFalls(g: Graph, order: seq<string>, x: string, y: string)
    requires Ordered(g, order) && x in g && x in order && y in g[x]
    ensures y in order && Position(order, y) < Position(order, x)
  {
    assert y in order[..Position(order, x)];
  }

  lemma {:induction false} ReachesFalls(g: Graph, order: seq<string>, x: string, y: string, p: seq<string>)
    requires Ordered(g, order) && x in order
    requires IsPath(g, p) && p[0] == x && p[|p| - 1] == y
    ensures y in order && Position(order, y) <= Position(order, x)
    decreases |p|
  {
    if |p| > 1 {
      assert p[0 + 1] in g[p[0]];
      EdgeFalls(g, order, x, p[1]);
      ReachesFalls(g, order, p[1], y, p[1..]);
    }
  }

  /** What lies below a node of an order stands earlier in it. */
  lemma AboveFalls(g: Graph, order: seq<string>, x: string, y: string)
    requires Ordered(g, order) && x in order && Above(g, x, y)
    ensures y in order && Position(order, y) < Position(order, x)
  {
    var z :| z in g[x] && Reaches(g, z, y);
    var p :| IsPath(g, p) && p[0] == z && p[|p| - 1] == y;
    EdgeFalls(g, order, x, z);
    ReachesFalls(g, order, z, y, p);
  }

  lemma AboveIsReached(g: Graph, x: string, y: string)
    requires Above(g, x, y)
    ensures Reaches(g, x, y)
  {
    ReachesUnfold(g, x, y);
  }

  lemma ReachesStep(g: Graph, x: string, y: string, z: string)
    requires Reaches(g, x, y) && y in g && z in g[y] && z in g
    ensures Reaches(g, x, z)
  {
    ReachesSelf(g, z);
    assert Above(g, y, z);
    AboveIsReached(g, y, z);
    PathJoin(g, x, y, z);
  }

  lemma AboveJoin(g: Graph, x: string, y: string, z: string)
    requires Above(g, x, y) && Reaches(g, y, z)
    ensures Above(g, x, z)
  {
    var w :| w in g[x] && Reaches(g, w, y);
    PathJoin(g, w, y, z);
  }

  lemma JoinAbove(g: Graph, x: string, y: string, z: string)
    requires Reaches(g, x, y) && Above(g, y, z)
    ensures Above(g, x, z)
  {
    ReachesUnfold(g, x, y);
    if Above(g, x, y) {
      AboveIsReached(g, y, z);
      AboveJoin(g, x, y, z);
    }
  }

  /** A cycle is a node above itself. */
  lemma CyclicIffAboveItself(g: Graph)
    ensures Acyclic(g) <==> forall x :: !Above(g, x, x)
  {
    forall x | Above(g, x, x) ensures !Acyclic(g) {
      var z :| z in g[x] && Reaches(g, z, x);
      var p :| IsPath(g, p) && p[0] == z && p[|p| - 1] == x;
      assert IsCycle(g, p);
    }
    if !Acyclic(g) {
      var p :| IsCycle(g, p);
      var x := p[|p| - 1];
      assert Reaches(g, p[0], x);
      assert Above(g, x, x);
    }
  }
}
