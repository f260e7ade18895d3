/** The registry of one database's snapshots, and the check of one snapshot's ancestry. */
module Lineages {
  import opened Graphs
  import opened Names

  /**
   * A registered snapshot: its parents, whether its schema state loads and matches its checksum, and
   * whether that state holds the table that is being looked for.
   */
  datatype Entry = Entry(
    identity: string, backend: string, version: int, parents: seq<string>, intact: bool, compatible: bool)

  type Index = map<string, Entry>

  predicate ValidIdentity(identity: string) {
    && identity != "" && '/' !in identity && '\\' !in identity && '\0' !in identity
    && identity != "." && identity != ".."
  }

  predicate Distinct(registry: seq<Entry>) {
    forall i, j :: 0 <= i < j < |registry| ==> registry[i].identity != registry[j].identity
  }

  predicate Indexable(registry: seq<Entry>) {
    Distinct(registry) && forall e :: e in registry ==> ValidIdentity(e.identity)
  }

  function IndexOf(registry: seq<Entry>): Index {
    if registry == [] then map[]
    else
      var last := registry[|registry| - 1];
      IndexOf(registry[..|registry| - 1])[last.identity := last]
  }

  lemma {:induction false} Indexed(registry: seq<Entry>)
    ensures forall e :: e in registry ==> e.identity in IndexOf(registry)
    ensures forall x :: x in IndexOf(registry) ==> IndexOf(registry)[x] in registry && IndexOf(registry)[x].identity == x
    ensures Distinct(registry) ==> forall e :: e in registry ==> IndexOf(registry)[e.identity] == e
  {
    if registry != [] {
      var rest, last := registry[..|registry| - 1], registry[|registry| - 1];
      assert registry == rest + [last];
      Indexed(rest);
    }
  }

  ghost function Lineage(index: Index): (g: Graph)
    ensures g.Keys == index.Keys
  {
    map x | x in index :: set p | p in index[x].parents
  }

  /** Parents are named once each, in ascending order. */
  predicate Canonical(parents: seq<string>) {
    Sorted(parents) && "" !in parents
  }

  predicate EntrySound(index: Index, backend: string, e: Entry) {
    e.backend == backend && e.version == 1 && Canonical(e.parents) && forall p :: p in e.parents ==> p in index
  }

  /** Everything in the ancestry of `start` is well formed, known, and no ancestor of itself. */
  ghost predicate AncestrySound(index: Index, start: string)
    requires start in index
  {
    forall x :: Reaches(Lineage(index), start, x) ==> MemberSound(index, index[start].backend, x)
  }

  ghost predicate MemberSound(index: Index, backend: string, x: string) {
    x in index && EntrySound(index, backend, index[x]) && !Above(Lineage(index), x, x)
  }

  /** An entry still to be visited, with the entries on the way to it. */
  datatype Item = Item(identity: string, ancestors: set<string>)

  // ---------- the state of the depth-first walk ----------

  /** The way to each pending entry: a path, and the one above another on the stack extends it. */
  ghost predicate Stacked(index: Index, start: string, pending: seq<Item>, ways: seq<seq<string>>) {
    && |pending| == |ways|
    && (forall i :: 0 <= i < |pending| ==> Way(index, start, pending[i], ways[i]))
    && forall i, j :: 0 <= i < j < |ways| ==> ways[i] <= ways[j]
  }

  ghost predicate Way(index: Index, start: string, item: Item, way: seq<string>) {
    && item.ancestors == Elements(way) && NoRepeats(way)
    && IsPath(Lineage(index), way + [item.identity]) && (way + [item.identity])[0] == start
  }

  ghost function Open(ways: seq<seq<string>>): seq<string> {
    if ways == [] then [] else ways[|ways| - 1]
  }

  /** Every parent of an open entry is finished, the next open entry, or pending right there. */
  ghost predicate Awaited(index: Index, open: seq<string>, finished: seq<string>, pending: seq<Item>, ways: seq<seq<string>>) {
    forall k, y :: 0 <= k < |open| && open[k] in index && y in index[open[k]].parents ==>
      Settled(open, k, y, finished) || Pending(open[..k + 1], y, pending, ways)
  }

  ghost predicate Settled(open: seq<string>, k: nat, y: string, finished: seq<string>) {
    y in finished || (k + 1 < |open| && y == open[k + 1])
  }

  ghost predicate Pending(way: seq<string>, y: string, pending: seq<Item>, ways: seq<seq<string>>) {
    exists i :: 0 <= i < |pending| && i < |ways| && pending[i].identity == y && ways[i] == way
  }

  ghost predicate Walking(index: Index, start: string, pending: seq<Item>, ways: seq<seq<string>>, open: seq<string>,
                          visited: set<string>, finished: seq<string>) {
    && Stacked(index, start, pending, ways)
    && (forall i :: 0 <= i < |ways| ==> ways[i] <= open)
    && OpenPath(index, open, finished, visited)
    && Ordered(Lineage(index), finished)
    && Awaited(index, open, finished, pending, ways)
    && (start in visited || Pending([], start, pending, ways))
    && AllSound(index, start, visited)
  }

  ghost predicate OpenPath(index: Index, open: seq<string>, finished: seq<string>, visited: set<string>) {
    && NoRepeats(open) && Elements(finished) !! Elements(open)
    && Elements(finished) + Elements(open) == visited <= index.Keys
  }

  ghost predicate AllSound(index: Index, start: string, visited: set<string>) {
    start in index && forall x :: x in visited ==>
      Reaches(Lineage(index), start, x) && x in index && EntrySound(index, index[start].backend, index[x])
  }

  lemma Begin(index: Index, start: string)
    requires start in index
    ensures Walking(index, start, [Item(start, {})], [[]], [], {}, [])
  {
    assert Way(index, start, Item(start, {}), []);
    var pending, ways: seq<seq<string>> := [Item(start, {})], [[]];
    assert pending[0].identity == start && ways[0] == [];
  }

  lemma WayReaches(index: Index, start: string, item: Item, way: seq<string>)
    requires Way(index, start, item, way)
    ensures Reaches(Lineage(index), start, item.identity)
    ensures item.identity in item.ancestors ==> Above(Lineage(index), item.identity, item.identity)
  {
    var g, path := Lineage(index), way + [item.identity];
    assert path[|path| - 1] == item.identity;
    if item.identity in item.ancestors {
      var k :| 0 <= k < |way| && way[k] == item.identity;
      var loop := path[k + 1..];
      assert IsPath(g, loop);
      assert path[k + 1] in g[path[k]];
      assert Reaches(g, loop[0], item.identity);
    }
  }

  /** An entry that was visited on another way and is not open is finished, so it can be dropped. */
  lemma Skip(index: Index, start: string, pending: seq<Item>, ways: seq<seq<string>>, visited: set<string>, finished: seq<string>)
    requires pending != [] && Walking(index, start, pending, ways, Open(ways), visited, finished)
    requires var item := pending[|pending| - 1]; item.identity in visited && item.identity !in item.ancestors
    ensures Walking(index, start, pending[..|pending| - 1], ways[..|pending| - 1], Open(ways), visited, finished)
  {
    hide Way, Ordered, AllSound;
    var n := |pending| - 1;
    var item, open := pending[n], Open(ways);
    assert item.identity in finished by {
      assert Way(index, start, item, ways[n]);
      WayAncestors(index, start, item, ways[n]);
      assert item.identity in Elements(finished);
    }
    forall k, y | 0 <= k < |open| && open[k] in index && y in index[open[k]].parents
      ensures Settled(open, k, y, finished) || Pending(open[..k + 1], y, pending[..n], ways[..n])
    {
      if !Settled(open, k, y, finished) {
        assert Pending(open[..k + 1], y, pending, ways);
        var i :| 0 <= i < |pending| && pending[i].identity == y && ways[i] == open[..k + 1];
        assert i < n && pending[..n][i].identity == y && ways[..n][i] == open[..k + 1];
      }
    }
    if start !in visited {
      var i :| 0 <= i < |pending| && pending[i].identity == start && ways[i] == [];
      assert i < n && pending[..n][i].identity == start && ways[..n][i] == [];
    }
  }

  lemma WayAncestors(index: Index, start: string, item: Item, way: seq<string>)
    requires Way(index, start, item, way)
    ensures item.ancestors == Elements(way)
  {
  }

  ghost function Children(parents: seq<string>, ancestors: set<string>): (items: seq<Item>)
    ensures |items| == |parents|
    ensures forall i :: 0 <= i < |parents| ==> items[i] == Item(parents[i], ancestors)
  {
    seq(|parents|, i requires 0 <= i < |parents| => Item(parents[i], ancestors))
  }

  lemma EnterWays(index: Index, start: string, item: Item, way: seq<string>, parent: string)
    requires Way(index, start, item, way) && item.identity !in item.ancestors
    requires item.identity in index && parent in index[item.identity].parents && parent in index
    ensures Way(index, start, Item(parent, item.ancestors + {item.identity}), way + [item.identity])
  {
    var longer := way + [item.identity];
    assert NoRepeats(longer) by {
      forall i | 0 <= i < |way| ensures way[i] != item.identity {
        assert way[i] in Elements(way);
      }
    }
    assert Elements(longer) == Elements(way) + {item.identity};
    assert (longer + [parent])[0] == longer[0];
    forall i | 0 <= i < |longer| ensures (longer + [parent])[i + 1] in Lineage(index)[(longer + [parent])[i]] {
      if i < |way| {
        assert longer[i + 1] in Lineage(index)[longer[i]];
      }
    }
  }

  /** A new entry opens: its parents are pending right above it. */
  lemma Enter(index: Index, start: string, pending: seq<Item>, ways: seq<seq<string>>, visited: set<string>, finished: seq<string>)
    requires pending != [] && Walking(index, start, pending, ways, Open(ways), visited, finished)
    requires var item := pending[|pending| - 1];
      && item.identity !in visited && item.identity !in item.ancestors && item.identity in index
      && EntrySound(index, index[start].backend, index[item.identity])
    ensures
      var n, item := |pending| - 1, pending[|pending| - 1];
      var parents, open := index[item.identity].parents, Open(ways) + [item.identity];
      Walking(index, start, pending[..n] + Children(parents, item.ancestors + {item.identity}),
              ways[..n] + seq(|parents|, i => open), open, visited + {item.identity}, finished)
  {
    hide Way, OpenPath, Ordered, Awaited;
    var n, item, open := |pending| - 1, pending[|pending| - 1], Open(ways);
    var x, parents := item.identity, index[item.identity].parents;
    var deeper := open + [x];
    var items, news := Children(parents, item.ancestors + {x}), seq(|parents|, i => deeper);
    EnterStacks(index, start, pending, ways);
    EnterOpens(index, open, finished, visited, x);
    assert open <= deeper;
    EnterAwaits(index, start, pending, ways, visited, finished);
    assert AllSound(index, start, visited + {x}) by {
      WayReaches(index, start, item, open);
    }
    if start !in visited + {x} {
      assert Pending([], start, pending[..n] + items, ways[..n] + news) by {
        var i :| 0 <= i < |pending| && pending[i].identity == start && ways[i] == [];
        assert (pending[..n] + items)[i].identity == start && (ways[..n] + news)[i] == [];
      }
    }
  }

  lemma EnterStacks(index: Index, start: string, pending: seq<Item>, ways: seq<seq<string>>)
    requires pending != [] && Stacked(index, start, pending, ways)
    requires var item := pending[|pending| - 1];
      && item.identity !in item.ancestors && item.identity in index
      && forall p :: p in index[item.identity].parents ==> p in index
    ensures
      var n, item := |pending| - 1, pending[|pending| - 1];
      var parents, open := index[item.identity].parents, Open(ways) + [item.identity];
      Stacked(index, start, pending[..n] + Children(parents, item.ancestors + {item.identity}),
              ways[..n] + seq(|parents|, i => open))
  {
    hide Way;
    var n, item, open := |pending| - 1, pending[|pending| - 1], Open(ways);
    var parents, deeper := index[item.identity].parents, open + [item.identity];
    var items, news := Children(parents, item.ancestors + {item.identity}), seq(|parents|, i => deeper);
    forall i | 0 <= i < |parents| ensures Way(index, start, items[i], news[i]) {
      EnterWays(index, start, item, open, parents[i]);
    }
    var pending', ways' := pending[..n] + items, ways[..n] + news;
    forall i, j | 0 <= i < j < |ways'| ensures ways'[i] <= ways'[j] {
      if i < n {
        assert ways[i] <= ways[n] <= deeper;
      }
    }
    forall i | 0 <= i < |pending'| ensures Way(index, start, pending'[i], ways'[i]) {
      assert i >= n ==> pending'[i] == items[i - n] && ways'[i] == news[i - n];
    }
  }

  lemma EnterOpens(index: Index, open: seq<string>, finished: seq<string>, visited: set<string>, x: string)
    requires OpenPath(index, open, finished, visited) && x in index && x !in visited
    ensures OpenPath(index, open + [x], finished, visited + {x})
  {
    assert Elements(open + [x]) == Elements(open) + {x};
    forall i | 0 <= i < |open| ensures open[i] != x {
      assert open[i] in Elements(open);
    }
  }

  lemma EnterAwaits(index: Index, start: string, pending: seq<Item>, ways: seq<seq<string>>, visited: set<string>, finished: seq<string>)
    requires pending != [] && Walking(index, start, pending, ways, Open(ways), visited, finished)
    requires pending[|pending| - 1].identity in index
    ensures
      var n, item := |pending| - 1, pending[|pending| - 1];
      var parents, open := index[item.identity].parents, Open(ways) + [item.identity];
      Awaited(index, open, finished, pending[..n] + Children(parents, item.ancestors + {item.identity}),
              ways[..n] + seq(|parents|, i => open))
  {
    hide Way, Ordered, AllSound, OpenPath;
    var n, item, open := |pending| - 1, pending[|pending| - 1], Open(ways);
    var x, parents := item.identity, index[item.identity].parents;
    var deeper := open + [x];
    var items, news := Children(parents, item.ancestors + {x}), seq(|parents|, i => deeper);
    var pending', ways' := pending[..n] + items, ways[..n] + news;
    forall k, y | 0 <= k < |deeper| && deeper[k] in index && y in index[deeper[k]].parents
      ensures Settled(deeper, k, y, finished) || Pending(deeper[..k + 1], y, pending', ways')
    {
      if k == |open| {
        var j :| 0 <= j < |parents| && parents[j] == y;
        assert pending'[n + j].identity == y && ways'[n + j] == deeper == deeper[..k + 1];
      } else if !Settled(deeper, k, y, finished) {
        assert deeper[k] == open[k] && deeper[..k + 1] == open[..k + 1];
        assert !Settled(open, k, y, finished);
        var i :| 0 <= i < |pending| && pending[i].identity == y && ways[i] == open[..k + 1];
        assert deeper[|open|] == x;
        assert i == n ==> |open| == k + 1;
        assert pending'[i].identity == y && ways'[i] == open[..k + 1];
      }
    }
  }

  /** Open entries with nothing pending finish, the deepest first. */
  lemma {:induction false} Close(g: Graph, finished: seq<string>, open: seq<string>, keep: nat) returns (longer: seq<string>)
    requires keep <= |open| && NoRepeats(open) && Ordered(g, finished) && Elements(finished) !! Elements(open)
    requires forall k, y :: keep <= k < |open| && open[k] in g && y in g[open[k]] ==> Settled(open, k, y, finished)
    ensures Ordered(g, longer) && Elements(longer) == Elements(finished) + Elements(open[keep..])
    decreases |open|
  {
    if keep == |open| {
      longer := finished;
    } else {
      var last := |open| - 1;
      var x := open[last];
      forall y | x in g && y in g[x] ensures y in Elements(finished) {
        assert Settled(open, last, y, finished);
      }
      OrderedAppend(g, finished, x);
      var shorter := open[..last];
      forall k, y | keep <= k < |shorter| && shorter[k] in g && y in g[shorter[k]] ensures Settled(shorter, k, y, finished + [x]) {
        assert Settled(open, k, y, finished);
        assert x in Elements(finished + [x]);
      }
      assert x in Elements(open);
      forall y | y in Elements(finished + [x]) ensures y !in Elements(shorter) {
      }
      longer := Close(g, finished + [x], shorter, keep);
      assert open[keep..] == shorter[keep..] + [x];
      assert Elements(open[keep..]) == Elements(shorter[keep..]) + {x};
    }
  }

  lemma LongWayNotPending(way: seq<string>, y: string, pending: seq<Item>, ways: seq<seq<string>>)
    requires |way| > |Open(ways)| && forall i, j :: 0 <= i < j < |ways| ==> ways[i] <= ways[j]
    ensures !Pending(way, y, pending, ways)
  {
    forall i | 0 <= i < |ways| ensures |ways[i]| < |way| {
      assert i < |ways| - 1 ==> ways[i] <= ways[|ways| - 1];
    }
  }

  lemma PartsDisjoint(s: seq<string>, k: nat)
    requires NoRepeats(s) && k <= |s|
    ensures Elements(s[..k]) !! Elements(s[k..])
  {
    forall i, j | 0 <= i < k <= j < |s| ensures s[i] != s[j] {
    }
    assert forall x :: x in s[k..] ==> exists j :: k <= j < |s| && s[j] == x;
  }

  /** Afterwards only what leads to the top of the stack is open. */
  lemma CloseDown(index: Index, start: string, pending: seq<Item>, ways: seq<seq<string>>, open: seq<string>,
                  visited: set<string>, finished: seq<string>)
    returns (longer: seq<string>)
    requires Walking(index, start, pending, ways, open, visited, finished)
    ensures Walking(index, start, pending, ways, Open(ways), visited, longer)
  {
    hide Way, AllSound;
    var g, kept := Lineage(index), Open(ways);
    assert kept <= open;
    forall k, y | |kept| <= k < |open| && open[k] in g && y in g[open[k]] ensures Settled(open, k, y, finished) {
      LongWayNotPending(open[..k + 1], y, pending, ways);
    }
    longer := Close(g, finished, open, |kept|);
    assert open == kept + open[|kept|..];
    assert Elements(open) == Elements(kept) + Elements(open[|kept|..]);
    assert kept == open[..|kept|];
    PartsDisjoint(open, |kept|);
    forall k, y | 0 <= k < |kept| && kept[k] in index && y in index[kept[k]].parents
      ensures Settled(kept, k, y, longer) || Pending(kept[..k + 1], y, pending, ways)
    {
      assert open[k] == kept[k] && open[..k + 1] == kept[..k + 1];
      if Settled(open, k, y, finished) {
        if y in finished {
          assert y in Elements(longer);
        } else if k + 1 >= |kept| {
          assert y == open[|kept|..][0];
          assert y in Elements(longer);
        }
      }
    }
  }

  /** With nothing pending the finished entries are the whole ancestry, in an order that rules cycles out. */
  lemma WalkedAll(index: Index, start: string, visited: set<string>, finished: seq<string>)
    requires Walking(index, start, [], [], [], visited, finished)
    ensures AncestrySound(index, start)
    ensures Ordered(Lineage(index), finished) && start in finished
    ensures forall x :: x in finished ==> Reaches(Lineage(index), start, x)
  {
    assert forall x :: x in finished ==> x in Elements(finished);
    var g := Lineage(index);
    assert start in Elements(finished);
    forall x | Reaches(g, start, x) ensures MemberSound(index, index[start].backend, x) {
      var p :| IsPath(g, p) && p[0] == start && p[|p| - 1] == x;
      ReachesFalls(g, finished, start, x, p);
      assert x in Elements(finished);
      if Above(g, x, x) {
        AboveFalls(g, finished, x, x);
      }
    }
  }

  /**
   * The depth-first walk accepts exactly the sound ancestries. The visited entries are skipped, yet no
   * cycle escapes: an entry skipped outside its own ancestry is already finished.
   */
  method ValidateAncestry(index: Index, start: string) returns (ok: bool, ghost order: seq<string>)
    requires start in index
    ensures ok <==> AncestrySound(index, start)
    ensures ok ==> Ordered(Lineage(index), order) && start in order
    ensures ok ==> forall x :: x in order ==> Reaches(Lineage(index), start, x)
  {
    hide AncestrySound, Walking, Way, AllSound, OpenPath, Ordered, Awaited, EntrySound;
    var pending := [Item(start, {})];
    var visited := {};
    ghost var ways: seq<seq<string>> := [[]];
    order := [];
    Begin(index, start);
    while pending != []
      invariant Walking(index, start, pending, ways, Open(ways), visited, order)
      decreases index.Keys - visited, |pending|
    {
      var item := pending[|pending| - 1];
      ghost var n, open := |pending| - 1, Open(ways);
      WalkingTop(index, start, pending, ways, visited, order);
      if item.identity in item.ancestors {
        RejectCycle(index, start, item, open);
        return false, order;
      }
      if item.identity in visited {
        Skip(index, start, pending, ways, visited, order);
        pending, ways := pending[..|pending| - 1], ways[..n];
      } else {
        if !EntrySound(index, index[start].backend, index[item.identity]) {
          RejectEntry(index, start, item, open);
          return false, order;
        }
        Enter(index, start, pending, ways, visited, order);
        var parents := index[item.identity].parents;
        open := open + [item.identity];
        pending := pending[..|pending| - 1]
          + seq(|parents|, i requires 0 <= i < |parents| => Item(parents[i], item.ancestors + {item.identity}));
        assert pending[n..] == Children(parents, item.ancestors + {item.identity});
        ways := ways[..n] + seq(|parents|, i => open);
        visited := visited + {item.identity};
      }
      order := CloseDown(index, start, pending, ways, open, visited, order);
    }
    assert ways == [] by {
      WalkingEmpty(index, start, ways, visited, order);
    }
    WalkedAll(index, start, visited, order);
    ok := true;
  }

  lemma WalkingTop(index: Index, start: string, pending: seq<Item>, ways: seq<seq<string>>, visited: set<string>, finished: seq<string>)
    requires pending != [] && Walking(index, start, pending, ways, Open(ways), visited, finished)
    ensures |ways| == |pending| && Way(index, start, pending[|pending| - 1], Open(ways))
    ensures pending[|pending| - 1].identity in index && visited <= index.Keys
  {
    assert Way(index, start, pending[|pending| - 1], ways[|pending| - 1]);
    var path := Open(ways) + [pending[|pending| - 1].identity];
    assert path[|path| - 1] in Lineage(index);
  }

  lemma WalkingEmpty(index: Index, start: string, ways: seq<seq<string>>, visited: set<string>, finished: seq<string>)
    requires Walking(index, start, [], ways, Open(ways), visited, finished)
    ensures ways == []
  {
  }

  lemma RejectCycle(index: Index, start: string, item: Item, way: seq<string>)
    requires start in index && Way(index, start, item, way) && item.identity in item.ancestors
    ensures !AncestrySound(index, start)
  {
    WayReaches(index, start, item, way);
    assert !MemberSound(index, index[start].backend, item.identity);
  }

  lemma RejectEntry(index: Index, start: string, item: Item, way: seq<string>)
    requires start in index && Way(index, start, item, way) && item.identity in index
    requires !EntrySound(index, index[start].backend, index[item.identity])
    ensures !AncestrySound(index, start)
  {
    WayReaches(index, start, item, way);
    assert !MemberSound(index, index[start].backend, item.identity);
  }
}
