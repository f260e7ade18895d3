/** Append-only records, each sealed by a checksum over its fields and its predecessor's checksum. */
module HashChains {

  type Digest(==, !new)

  datatype Body<K, C> = Body(key: K, content: C, version: nat, previous: Digest)

  datatype Record<K, C> = Record(body: Body<K, C>, checksum: Digest)

  /** The record checksum, and the text that stands for "no predecessor". */
  datatype Hashing<!K, !C> = Hashing(hash: Body<K, C> -> Digest, empty: Digest)

  ghost predicate Collisionless<K(!new), C(!new)>(h: Hashing<K, C>) {
    && (forall a, b :: h.hash(a) == h.hash(b) ==> a == b)
    && forall a :: h.hash(a) != h.empty
  }

  // ---------- validation ----------

  /** The checksum of the last record of a key. */
  function TailOf<K(==), C>(h: Hashing<K, C>, rows: seq<Record<K, C>>, key: K): Digest {
    if rows == [] then h.empty
    else if rows[|rows| - 1].body.key == key then rows[|rows| - 1].checksum
    else TailOf(h, rows[..|rows| - 1], key)
  }

  predicate Follows<K(==), C>(h: Hashing<K, C>, before: seq<Record<K, C>>, r: Record<K, C>) {
    r.body.previous == TailOf(h, before, r.body.key) && r.checksum == h.hash(r.body)
  }

  ghost predicate ChainsValid<K, C>(h: Hashing<K, C>, rows: seq<Record<K, C>>) {
    forall i :: 0 <= i < |rows| ==> Follows(h, rows[..i], rows[i])
  }

  method ValidateChains<K(==), C>(h: Hashing<K, C>, rows: seq<Record<K, C>>) returns (ok: bool)
    ensures ok <==> ChainsValid(h, rows)
  {
    var tails: map<K, Digest> := map[];
    for i := 0 to |rows|
      invariant forall k :: TailOf(h, rows[..i], k) == if k in tails then tails[k] else h.empty
      invariant forall j :: 0 <= j < i ==> Follows(h, rows[..j], rows[j])
    {
      var row := rows[i];
      var expected := if row.body.key in tails then tails[row.body.key] else h.empty;
      if row.body.previous != expected || row.checksum != h.hash(row.body) {
        assert !Follows(h, rows[..i], rows[i]);
        return false;
      }
      assert rows[..i + 1][..i] == rows[..i];
      tails := tails[row.body.key := row.checksum];
    }
    ok := true;
  }

  /** The records of one key, in the order given. */
  function Of<K(==), C>(rows: seq<Record<K, C>>, key: K): (r: seq<Record<K, C>>)
    ensures |r| <= |rows|
    ensures forall i :: 0 <= i < |r| ==> r[i].body.key == key
  {
    if rows == [] then []
    else
      var last := rows[|rows| - 1];
      Of(rows[..|rows| - 1], key) + if last.body.key == key then [last] else []
  }

  /** The checksum a record after these must name. */
  function End<K, C>(h: Hashing<K, C>, chain: seq<Record<K, C>>): Digest {
    if chain == [] then h.empty else chain[|chain| - 1].checksum
  }

  /** One chain: every record names its predecessor and seals its own fields. */
  ghost predicate Chain<K, C>(h: Hashing<K, C>, chain: seq<Record<K, C>>) {
    forall i :: 0 <= i < |chain| ==>
      chain[i].body.previous == End(h, chain[..i]) && chain[i].checksum == h.hash(chain[i].body)
  }

  lemma ChainPush<K, C>(h: Hashing<K, C>, chain: seq<Record<K, C>>, r: Record<K, C>)
    ensures Chain(h, chain + [r]) <==> Chain(h, chain) && r.body.previous == End(h, chain) && r.checksum == h.hash(r.body)
  {
    var longer := chain + [r];
    assert longer[..|chain|] == chain;
    assert forall i :: 0 <= i < |chain| ==> longer[..i] == chain[..i] && longer[i] == chain[i];
    if Chain(h, longer) {
      forall i | 0 <= i < |chain|
        ensures chain[i].body.previous == End(h, chain[..i]) && chain[i].checksum == h.hash(chain[i].body)
      {
        assert longer[i].body.previous == End(h, longer[..i]);
      }
      assert longer[|chain|].body.previous == End(h, longer[..|chain|]);
    }
  }

  lemma {:induction false} TailIsEnd<K, C>(h: Hashing<K, C>, rows: seq<Record<K, C>>, key: K)
    ensures TailOf(h, rows, key) == End(h, Of(rows, key))
  {
    if rows != [] && rows[|rows| - 1].body.key != key {
      TailIsEnd(h, rows[..|rows| - 1], key);
      assert Of(rows, key) == Of(rows[..|rows| - 1], key);
    }
  }

  lemma ValidPush<K, C>(h: Hashing<K, C>, rows: seq<Record<K, C>>, r: Record<K, C>)
    ensures ChainsValid(h, rows + [r]) <==> ChainsValid(h, rows) && Follows(h, rows, r)
  {
    var longer := rows + [r];
    assert longer[..|rows|] == rows;
    assert forall i :: 0 <= i < |rows| ==> longer[..i] == rows[..i] && longer[i] == rows[i];
    if ChainsValid(h, longer) {
      forall i | 0 <= i < |rows| ensures Follows(h, rows[..i], rows[i]) {
        assert Follows(h, longer[..i], longer[i]);
      }
      assert Follows(h, longer[..|rows|], longer[|rows|]);
    }
  }

  lemma OfPush<K, C>(rows: seq<Record<K, C>>, r: Record<K, C>, key: K)
    ensures Of(rows + [r], key) == Of(rows, key) + if r.body.key == key then [r] else []
  {
    assert (rows + [r])[..|rows|] == rows;
  }

  lemma ChainStep<K, C>(h: Hashing<K, C>, before: seq<Record<K, C>>, r: Record<K, C>, k: K)
    ensures Chain(h, Of(before + [r], k)) <==> Chain(h, Of(before, k)) && (r.body.key == k ==> Follows(h, before, r))
  {
    hide Chain, Of;
    OfPush(before, r, k);
    if r.body.key == k {
      TailIsEnd(h, before, k);
      ChainPush(h, Of(before, k), r);
    } else {
      assert Of(before, k) + [] == Of(before, k);
    }
  }

  lemma {:induction false} ValidHasChain<K, C>(h: Hashing<K, C>, rows: seq<Record<K, C>>, k: K)
    requires ChainsValid(h, rows)
    ensures Chain(h, Of(rows, k))
  {
    if rows != [] {
      var before, r := rows[..|rows| - 1], rows[|rows| - 1];
      assert rows == before + [r];
      ValidPush(h, before, r);
      ValidHasChain(h, before, k);
      ChainStep(h, before, r, k);
    }
  }

  lemma {:induction false} ChainsAreValid<K(!new), C(!new)>(h: Hashing<K, C>, rows: seq<Record<K, C>>)
    requires forall k :: Chain(h, Of(rows, k))
    ensures ChainsValid(h, rows)
  {
    if rows != [] {
      var before, r := rows[..|rows| - 1], rows[|rows| - 1];
      assert rows == before + [r];
      forall k ensures Chain(h, Of(before, k)) && (r.body.key == k ==> Follows(h, before, r)) {
        ChainStep(h, before, r, k);
      }
      ChainsAreValid(h, before);
      ValidPush(h, before, r);
      assert Chain(h, Of(before, r.body.key)) && Follows(h, before, r);
    }
  }

  ghost predicate EveryChain<K(!new), C(!new)>(h: Hashing<K, C>, rows: seq<Record<K, C>>) {
    forall k :: Chain(h, Of(rows, k))
  }

  /** The interleaving of the keys does not matter: the rows are valid when each key's chain is. */
  lemma ValidIffChains<K(!new), C(!new)>(h: Hashing<K, C>, rows: seq<Record<K, C>>)
    ensures ChainsValid(h, rows) <==> EveryChain(h, rows)
  {
    if ChainsValid(h, rows) {
      forall k ensures Chain(h, Of(rows, k)) {
        ValidHasChain(h, rows, k);
      }
      assert EveryChain(h, rows);
    }
    if EveryChain(h, rows) {
      ChainsAreValid(h, rows);
    }
  }

  // ---------- what a chain determines ----------

  lemma EndIsEmpty<K(!new), C(!new)>(h: Hashing<K, C>, chain: seq<Record<K, C>>)
    requires Collisionless(h) && Chain(h, chain)
    ensures End(h, chain) == h.empty <==> chain == []
  {
    if chain != [] {
      assert chain[|chain| - 1].checksum == h.hash(chain[|chain| - 1].body);
    }
  }

  /** Two accepted chains that end in the same checksum are the same, record for record. */
  lemma {:induction false} EndDeterminesChain<K(!new), C(!new)>(h: Hashing<K, C>, a: seq<Record<K, C>>, b: seq<Record<K, C>>)
    requires Collisionless(h) && Chain(h, a) && Chain(h, b) && End(h, a) == End(h, b)
    ensures a == b
  {
    EndIsEmpty(h, a);
    EndIsEmpty(h, b);
    if a != [] && b != [] {
      var p, q := a[..|a| - 1], b[..|b| - 1];
      var x, y := a[|a| - 1], b[|b| - 1];
      assert a == p + [x] && b == q + [y];
      ChainPush(h, p, x);
      ChainPush(h, q, y);
      assert x.body == y.body;
      EndDeterminesChain(h, p, q);
    }
  }

  lemma ChainPrefix<K, C>(h: Hashing<K, C>, chain: seq<Record<K, C>>, n: nat)
    requires Chain(h, chain) && n <= |chain|
    ensures Chain(h, chain[..n])
  {
    assert forall i :: 0 <= i < n ==> chain[..n][..i] == chain[..i] && chain[..n][i] == chain[i];
  }

  /** So no record occurs twice. */
  lemma NoRepeat<K(!new), C(!new)>(h: Hashing<K, C>, chain: seq<Record<K, C>>, i: nat, j: nat)
    requires Collisionless(h) && Chain(h, chain) && i < j < |chain|
    ensures chain[i] != chain[j]
  {
    ChainPrefix(h, chain, i + 1);
    ChainPrefix(h, chain, j + 1);
    hide Chain;
    assert End(h, chain[..i + 1]) == chain[i].checksum && End(h, chain[..j + 1]) == chain[j].checksum;
    if chain[i] == chain[j] {
      EndDeterminesChain(h, chain[..i + 1], chain[..j + 1]);
    }
  }

  /** Every record names none, or one that was there before it: what reading before writing amounts to. */
  ghost predicate Grounded<K, C>(h: Hashing<K, C>, log: seq<Record<K, C>>) {
    forall i :: 0 <= i < |log| ==>
      log[i].checksum == h.hash(log[i].body) && (log[i].body.previous == h.empty || Names(log[..i], log[i].body.previous))
  }

  ghost predicate Names<K, C>(log: seq<Record<K, C>>, checksum: Digest) {
    exists j :: 0 <= j < |log| && log[j].checksum == checksum
  }

  // ---------- versions ----------

  ghost predicate Ascending<K, C>(s: seq<Record<K, C>>) {
    forall i, j :: 0 <= i < j < |s| ==> s[i].body.version <= s[j].body.version
  }

  /** A result of the query: the same records, by version; equal versions come in any order. */
  ghost predicate ByVersion<K, C>(s: seq<Record<K, C>>, log: seq<Record<K, C>>) {
    multiset(s) == multiset(log) && Ascending(s)
  }

  /** What FINAL keeps: the greatest version, the later insertion among equals. */
  function Final<K, C>(log: seq<Record<K, C>>): (r: Record<K, C>)
    requires log != []
    ensures r in log
  {
    var last := log[|log| - 1];
    if |log| == 1 then last
    else
      var best := Final(log[..|log| - 1]);
      if best.body.version > last.body.version then best else last
  }

  lemma {:induction false} FinalOfAscending<K, C>(log: seq<Record<K, C>>)
    requires log != [] && Ascending(log)
    ensures Final(log) == log[|log| - 1]
  {
    if |log| > 1 {
      FinalOfAscending(log[..|log| - 1]);
    }
  }

  lemma SplitLast<T>(s: seq<T>)
    requires s != []
    ensures s == s[..|s| - 1] + [s[|s| - 1]]
    ensures multiset(s) == multiset(s[..|s| - 1]) + multiset{s[|s| - 1]}
  {
    assert s == s[..|s| - 1] + [s[|s| - 1]];
  }

  lemma DropSameLast<T>(s: seq<T>, t: seq<T>)
    requires s != [] && t != [] && multiset(s) == multiset(t) && s[|s| - 1] == t[|t| - 1]
    ensures |s| == |t|
    ensures multiset(s[..|s| - 1]) == multiset(t[..|t| - 1])
  {
    SplitLast(s);
    SplitLast(t);
    assert |s| == |multiset(s)| == |t|;
    var x := multiset{s[|s| - 1]};
    assert multiset(s[..|s| - 1]) == multiset(s) - x;
    assert multiset(t[..|t| - 1]) == multiset(t) - x;
  }

  lemma RepeatCounts<T>(s: seq<T>, i: nat, j: nat)
    requires i < j < |s| && s[i] == s[j]
    ensures multiset(s)[s[i]] >= 2
  {
    assert s == s[..i] + [s[i]] + s[i + 1..];
    assert s[i + 1..][j - i - 1] == s[j];
    assert s[j] in multiset(s[i + 1..]);
  }

  lemma {:induction false} ChainCounts<K(!new), C(!new)>(h: Hashing<K, C>, chain: seq<Record<K, C>>, r: Record<K, C>)
    requires Collisionless(h) && Chain(h, chain)
    ensures multiset(chain)[r] <= 1
    decreases |chain|
  {
    if chain != [] {
      var n := |chain| - 1;
      SplitLast(chain);
      ChainPrefix(h, chain, n);
      ChainCounts(h, chain[..n], r);
      forall i | 0 <= i < n ensures chain[..n][i] != chain[n] {
        NoRepeat(h, chain, i, n);
      }
      assert chain[n] !in multiset(chain[..n]);
    }
  }

  /** The record inserted last is the last of every order that validates. */
  lemma LastInsertedIsLast<K(!new), C(!new)>(h: Hashing<K, C>, log: seq<Record<K, C>>, s: seq<Record<K, C>>)
    requires Collisionless(h) && Grounded(h, log) && Chain(h, s) && multiset(s) == multiset(log) && log != []
    ensures |s| == |log| && s[|s| - 1] == log[|log| - 1]
  {
    var n := |log| - 1;
    assert |s| == |multiset(s)| == |log|;
    var last := log[n];
    assert last in multiset(log) && last in multiset(s);
    var j :| 0 <= j < |s| && s[j] == last;
    if j < n {
      Successor(h, s, j);
      var next := s[j + 1];
      assert next in multiset(s) && next in multiset(log);
      var i :| 0 <= i < |log| && log[i] == next;
      assert s[j].checksum == h.hash(s[j].body) != h.empty;
      assert Names(log[..i], next.body.previous);
      var k :| 0 <= k < i && log[..i][k].checksum == next.body.previous;
      assert log[k].checksum == h.hash(log[k].body) && last.checksum == h.hash(last.body);
      assert log[k] == last;
      RepeatCounts(log, k, n);
      ChainCounts(h, s, last);
    }
  }

  lemma Successor<K, C>(h: Hashing<K, C>, s: seq<Record<K, C>>, j: nat)
    requires Chain(h, s) && j + 1 < |s|
    ensures s[j + 1].body.previous == s[j].checksum
  {
    assert s[..j + 1][j] == s[j];
  }

  lemma GroundedPrefix<K, C>(h: Hashing<K, C>, log: seq<Record<K, C>>)
    requires log != [] && Grounded(h, log)
    ensures Grounded(h, log[..|log| - 1])
  {
    var n := |log| - 1;
    assert forall i :: 0 <= i < n ==> log[..n][..i] == log[..i] && log[..n][i] == log[i];
  }

  /**
   * Where the records in version order validate, that order is the order of insertion. A clock that ran
   * backwards between processes, or a fork of the chain, cannot pass.
   */
  lemma {:induction false} ValidatedIsInsertionOrder<K(!new), C(!new)>(
    h: Hashing<K, C>, log: seq<Record<K, C>>, s: seq<Record<K, C>>)
    requires Collisionless(h) && Grounded(h, log) && Chain(h, s) && multiset(s) == multiset(log)
    ensures s == log
    decreases |log|
  {
    assert |s| == |multiset(s)| == |log|;
    if log != [] {
      var n := |log| - 1;
      LastInsertedIsLast(h, log, s);
      DropSameLast(s, log);
      SplitLast(s);
      SplitLast(log);
      ChainPrefix(h, s, n);
      GroundedPrefix(h, log);
      hide Grounded, Chain;
      ValidatedIsInsertionOrder(h, log[..n], s[..n]);
    }
  }

  /** So FINAL then returns the record that was inserted last, and the next append extends the chain. */
  lemma FinalIsLastInserted<K(!new), C(!new)>(h: Hashing<K, C>, log: seq<Record<K, C>>, s: seq<Record<K, C>>)
    requires Collisionless(h) && Grounded(h, log) && ByVersion(s, log) && Chain(h, s) && log != []
    ensures Final(log) == log[|log| - 1] && Chain(h, log)
  {
    ValidatedIsInsertionOrder(h, log, s);
    FinalOfAscending(log);
  }

  /** A clock that ran backwards shows: no result of the query validates. */
  lemma BackwardsIsRefused<K(!new), C(!new)>(h: Hashing<K, C>, log: seq<Record<K, C>>, s: seq<Record<K, C>>)
    requires Collisionless(h) && Grounded(h, log) && ByVersion(s, log) && !Ascending(log)
    ensures !Chain(h, s)
  {
    if Chain(h, s) {
      ValidatedIsInsertionOrder(h, log, s);
    }
  }

  // ---------- reading ----------

  function PlaceVersion<K, C>(r: Record<K, C>, s: seq<Record<K, C>>): (t: seq<Record<K, C>>)
    ensures multiset(t) == multiset(s) + multiset{r}
  {
    if s == [] || r.body.version < s[0].body.version then [r] + s
    else
      assert s == [s[0]] + s[1..];
      [s[0]] + PlaceVersion(r, s[1..])
  }

  /** A query result ordered by version. */
  function OrderByVersion<K, C>(log: seq<Record<K, C>>): (s: seq<Record<K, C>>)
    ensures multiset(s) == multiset(log)
  {
    if log == [] then []
    else
      assert log == log[..|log| - 1] + [log[|log| - 1]];
      PlaceVersion(log[|log| - 1], OrderByVersion(log[..|log| - 1]))
  }

  lemma {:induction false} PlaceAscends<K, C>(r: Record<K, C>, s: seq<Record<K, C>>)
    requires Ascending(s)
    ensures Ascending(PlaceVersion(r, s))
  {
    if s != [] && s[0].body.version <= r.body.version {
      var rest := PlaceVersion(r, s[1..]);
      PlaceAscends(r, s[1..]);
      forall j | 0 <= j < |rest| ensures s[0].body.version <= rest[j].body.version {
        assert rest[j] in multiset(rest);
        assert rest[j] == r || rest[j] in multiset(s[1..]);
        assert rest[j] == r || rest[j] in s[1..];
      }
    }
  }

  lemma {:induction false} OrderIsByVersion<K, C>(log: seq<Record<K, C>>)
    ensures ByVersion(OrderByVersion(log), log)
  {
    if log != [] {
      OrderIsByVersion(log[..|log| - 1]);
      PlaceAscends(log[|log| - 1], OrderByVersion(log[..|log| - 1]));
    }
  }

  lemma {:induction false} OfSameKey<K, C>(rows: seq<Record<K, C>>, key: K)
    requires forall r :: r in rows ==> r.body.key == key
    ensures Of(rows, key) == rows
  {
    if rows != [] {
      OfSameKey(rows[..|rows| - 1], key);
      assert rows == rows[..|rows| - 1] + [rows[|rows| - 1]];
    }
  }

  /** The records of one key pass the check that is made before every command. */
  ghost predicate Accepted<K, C>(h: Hashing<K, C>, log: seq<Record<K, C>>) {
    Chain(h, OrderByVersion(log))
  }

  /** What acceptance buys: the chain is whole in order of insertion, and FINAL reads its last record. */
  lemma AcceptedIsWhole<K(!new), C(!new)>(h: Hashing<K, C>, log: seq<Record<K, C>>)
    requires Collisionless(h) && Grounded(h, log) && Accepted(h, log) && log != []
    ensures Chain(h, log) && Final(log) == log[|log| - 1]
  {
    OrderIsByVersion(log);
    FinalIsLastInserted(h, log, OrderByVersion(log));
  }

  lemma ValidOneKey<K(!new), C(!new)>(h: Hashing<K, C>, rows: seq<Record<K, C>>, key: K)
    requires forall r :: r in rows ==> r.body.key == key
    ensures ChainsValid(h, OrderByVersion(rows)) ==> Accepted(h, rows)
  {
    var s := OrderByVersion(rows);
    forall r | r in s ensures r.body.key == key {
      assert r in multiset(s) && r in multiset(rows);
    }
    if ChainsValid(h, s) {
      ValidHasChain(h, s, key);
      OfSameKey(s, key);
    }
  }

  // ---------- writing ----------

  /** The next version of a process: never the same twice and never backwards, whatever the clock shows. */
  function NextVersion(last: nat, now: nat): (version: nat)
    ensures version > last && version >= now
  {
    if now > last + 1 then now else last + 1
  }

  /** A table as one process leaves it: every chain is whole, and versions grow with every insertion, across all keys. */
  ghost predicate InOrder<K, C>(h: Hashing<K, C>, records: seq<Record<K, C>>, last: nat) {
    ChainsValid(h, records) && Strict(records) && forall i :: 0 <= i < |records| ==> records[i].body.version <= last
  }

  /** A record that follows the last one of its key and has a later version keeps it so. */
  lemma InsertInOrder<K, C>(h: Hashing<K, C>, records: seq<Record<K, C>>, last: nat, r: Record<K, C>)
    requires InOrder(h, records, last) && last < r.body.version && Follows(h, records, r)
    ensures InOrder(h, records + [r], r.body.version)
  {
    hide ChainsValid, Follows;
    ValidPush(h, records, r);
  }

  lemma InsertedInOrder<K, C>(h: Hashing<K, C>, records: seq<Record<K, C>>, last: nat, r: Record<K, C>)
    requires last < r.body.version && r.checksum == h.hash(r.body)
    ensures InOrder(h, records, last) && r.body.previous == TailOf(h, records, r.body.key) ==>
      InOrder(h, records + [r], r.body.version)
  {
    if InOrder(h, records, last) && r.body.previous == TailOf(h, records, r.body.key) {
      InsertInOrder(h, records, last, r);
    }
  }

  lemma LaterInOrder<K, C>(h: Hashing<K, C>, records: seq<Record<K, C>>, last: nat, last': nat)
    requires last <= last'
    ensures InOrder(h, records, last) ==> InOrder(h, records, last')
  {
  }

  /** Then every key's records validate in version order, whatever was interleaved. */
  lemma InOrderValidates<K(!new), C(!new)>(h: Hashing<K, C>, records: seq<Record<K, C>>, last: nat, key: K, s: seq<Record<K, C>>)
    requires InOrder(h, records, last) && ByVersion(s, Of(records, key))
    ensures Chain(h, s) && s == Of(records, key)
  {
    ValidHasChain(h, records, key);
    OfAscends(records, key);
    StrictIsOnly(s, Of(records, key));
  }

  /** All of them pass the check together, too. */
  lemma InOrderReads<K, C>(h: Hashing<K, C>, records: seq<Record<K, C>>, last: nat)
    requires InOrder(h, records, last)
    ensures ChainsValid(h, OrderByVersion(records))
  {
    OrderIsByVersion(records);
    StrictIsOnly(OrderByVersion(records), records);
  }

  /** And FINAL reads the record that was inserted last. */
  lemma InOrderFinal<K, C>(h: Hashing<K, C>, records: seq<Record<K, C>>, last: nat, key: K)
    requires InOrder(h, records, last) && Of(records, key) != []
    ensures Final(Of(records, key)) == Of(records, key)[|Of(records, key)| - 1]
    ensures TailOf(h, records, key) == Final(Of(records, key)).checksum
  {
    OfAscends(records, key);
    FinalOfAscending(Of(records, key));
    TailIsEnd(h, records, key);
  }

  ghost predicate Strict<K, C>(s: seq<Record<K, C>>) {
    forall i, j :: 0 <= i < j < |s| ==> s[i].body.version < s[j].body.version
  }

  lemma {:induction false} OfElements<K, C>(rows: seq<Record<K, C>>, key: K)
    ensures forall r :: r in Of(rows, key) ==> r in rows
  {
    if rows != [] {
      OfElements(rows[..|rows| - 1], key);
    }
  }

  lemma {:induction false} OfAscends<K, C>(rows: seq<Record<K, C>>, key: K)
    requires Strict(rows)
    ensures Strict(Of(rows, key))
  {
    if rows != [] {
      var before := rows[..|rows| - 1];
      OfAscends(before, key);
      OfElements(before, key);
      forall i | 0 <= i < |Of(before, key)| ensures Of(before, key)[i].body.version < rows[|rows| - 1].body.version {
        assert Of(before, key)[i] in before;
      }
    }
  }

  lemma StrictLast<K, C>(s: seq<Record<K, C>>, log: seq<Record<K, C>>)
    requires Strict(log) && ByVersion(s, log) && log != []
    ensures |s| == |log| && s[|s| - 1] == log[|log| - 1]
  {
    assert |s| == |multiset(s)| == |log|;
    var n := |log| - 1;
    assert log[n] in multiset(log) && log[n] in multiset(s);
    assert s[n] in multiset(s) && s[n] in multiset(log);
    var j :| 0 <= j < |s| && s[j] == log[n];
    var i :| 0 <= i < |log| && log[i] == s[n];
    assert i < n ==> log[i].body.version < log[n].body.version;
    assert j < n ==> s[j].body.version <= s[n].body.version;
  }

  lemma {:induction false} StrictIsOnly<K, C>(s: seq<Record<K, C>>, log: seq<Record<K, C>>)
    requires Strict(log) && ByVersion(s, log)
    ensures s == log
    decreases |log|
  {
    if log == [] {
      assert |s| == |multiset(s)|;
    } else {
      var n := |log| - 1;
      StrictLast(s, log);
      DropSameLast(s, log);
      SplitLast(s);
      SplitLast(log);
      StrictIsOnly(s[..n], log[..n]);
    }
  }
}
