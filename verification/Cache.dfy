/** `BaseService`: a read cache over a table, with expiry, invalidation and eviction. */
module Cache {
  import opened Options

  const CACHE_TTL := 60000
  const CAPACITY := 500

  datatype Slot<T> = Slot(id: nat, data: T, expires: nat)

  // ---------------------------------------------------------------- the cache as an insertion-ordered Map

  function Ids<T>(s: seq<Slot<T>>): set<nat> {
    if s == [] then {} else {s[0].id} + Ids(s[1..])
  }

  /** One entry per key. */
  predicate Distinct<T>(s: seq<Slot<T>>) {
    |Ids(s)| == |s|
  }

  function Find<T>(s: seq<Slot<T>>, id: nat): Option<Slot<T>> {
    if s == [] then None else if s[0].id == id then Some(s[0]) else Find(s[1..], id)
  }

  /** `Map.set`: a known key keeps its place, a new one goes to the end. */
  function Put<T>(s: seq<Slot<T>>, x: Slot<T>): seq<Slot<T>> {
    if s == [] then [x] else if s[0].id == x.id then [x] + s[1..] else [s[0]] + Put(s[1..], x)
  }

  function Without<T>(s: seq<Slot<T>>, ids: set<nat>): seq<Slot<T>> {
    if s == [] then [] else (if s[0].id in ids then [] else [s[0]]) + Without(s[1..], ids)
  }

  lemma {:induction false} IdsConcat<T>(a: seq<Slot<T>>, b: seq<Slot<T>>)
    ensures Ids(a + b) == Ids(a) + Ids(b)
  {
    if a == [] {
      assert a + b == b;
    } else {
      assert (a + b)[1..] == a[1..] + b;
      IdsConcat(a[1..], b);
    }
  }

  lemma {:induction false} IdsCount<T>(s: seq<Slot<T>>)
    ensures |Ids(s)| <= |s|
  {
    if s != [] {
      IdsCount(s[1..]);
      assert |{s[0].id} + Ids(s[1..])| <= 1 + |Ids(s[1..])|;
    }
  }

  lemma {:induction false} InIds<T>(s: seq<Slot<T>>, x: Slot<T>)
    requires x in s
    ensures x.id in Ids(s)
  {
    if s[0] != x {
      InIds(s[1..], x);
    }
  }

  lemma {:induction false} FindIn<T>(s: seq<Slot<T>>, id: nat)
    ensures Find(s, id).Some? <==> id in Ids(s)
    ensures Find(s, id).Some? ==> Find(s, id).value in s && Find(s, id).value.id == id
  {
    if s != [] {
      FindIn(s[1..], id);
    }
  }

  lemma Adjoin(a: nat, b: set<nat>)
    ensures |{a} + b| == |b| + if a in b then 0 else 1
  {
    if a in b {
      assert {a} + b == b;
    }
  }

  lemma IdsCons<T>(x: Slot<T>, t: seq<Slot<T>>)
    ensures Ids([x] + t) == {x.id} + Ids(t)
    ensures Distinct([x] + t) <==> x.id !in Ids(t) && Distinct(t)
  {
    assert ([x] + t)[1..] == t;
    IdsCount(t);
    Adjoin(x.id, Ids(t));
  }

  lemma DistinctPrefix<T>(a: seq<Slot<T>>, b: seq<Slot<T>>)
    requires Distinct(a + b)
    ensures |Ids(a)| == |a| && |Ids(b)| == |b| && Ids(a) !! Ids(b)
  {
    hide Ids;
    IdsConcat(a, b);
    IdsCount(a);
    IdsCount(b);
    Union(Ids(a), Ids(b));
  }

  lemma Union(a: set<nat>, b: set<nat>)
    ensures |a + b| == |a| + |b| - |a * b|
    ensures |a * b| == 0 ==> a !! b
  {
    assert |a + b| + |a * b| == |a| + |b|;
    if |a * b| == 0 {
      assert a * b == {};
      assert forall x :: x in a && x in b ==> x in a * b;
    }
  }

  lemma {:induction false} PutIds<T>(s: seq<Slot<T>>, x: Slot<T>)
    ensures Ids(Put(s, x)) == {x.id} + Ids(s)
    ensures Distinct(s) ==> Distinct(Put(s, x))
  {
    if s == [] {
      NoIds<T>();
      assert [x] == [x] + s;
      IdsCons(x, s);
    } else {
      var h, t := s[0], s[1..];
      assert s == [h] + t;
      hide Ids, Put, Distinct;
      IdsCons(h, t);
      IdsCons(x, t);
      PutIds(t, x);
      IdsCons(h, Put(t, x));
    }
  }

  lemma PutSize<T>(s: seq<Slot<T>>, x: Slot<T>)
    requires Distinct(s)
    ensures Distinct(Put(s, x)) && |Put(s, x)| == if x.id in Ids(s) then |s| else |s| + 1
  {
    hide Ids, Put;
    PutIds(s, x);
    Adjoin(x.id, Ids(s));
  }

  lemma {:induction false} PutMembers<T>(s: seq<Slot<T>>, x: Slot<T>)
    ensures forall y :: y in Put(s, x) ==> y == x || y in s
    ensures x.id !in Ids(s) ==> Put(s, x) == s + [x]
  {
    if s != [] {
      PutMembers(s[1..], x);
      assert s == [s[0]] + s[1..];
    }
  }

  lemma NoIds<T>()
    ensures Ids<T>([]) == {} && Distinct<T>([])
  {
  }

  lemma {:induction false} FindPut<T>(s: seq<Slot<T>>, x: Slot<T>, id: nat)
    ensures Find(Put(s, x), id) == if id == x.id then Some(x) else Find(s, id)
  {
    if s != [] {
      if s[0].id == x.id {
        assert ([x] + s[1..])[1..] == s[1..];
      } else {
        assert ([s[0]] + Put(s[1..], x))[1..] == Put(s[1..], x);
        FindPut(s[1..], x, id);
      }
    }
  }

  lemma WithoutCons<T>(x: Slot<T>, t: seq<Slot<T>>, ids: set<nat>)
    ensures Without([x] + t, ids) == if x.id in ids then Without(t, ids) else [x] + Without(t, ids)
  {
    assert ([x] + t)[1..] == t;
  }

  lemma {:induction false} WithoutFacts<T>(s: seq<Slot<T>>, ids: set<nat>)
    requires Distinct(s)
    ensures Distinct(Without(s, ids)) && Ids(Without(s, ids)) == Ids(s) - ids
  {
    if s == [] {
      NoIds<T>();
    } else {
      var x, t := s[0], s[1..];
      assert s == [x] + t;
      hide Ids, Without;
      IdsCons(x, t);
      WithoutCons(x, t, ids);
      WithoutFacts(t, ids);
      IdsCons(x, Without(t, ids));
    }
  }

  lemma {:induction false} WithoutHas<T>(s: seq<Slot<T>>, ids: set<nat>, y: Slot<T>)
    ensures y in Without(s, ids) <==> y in s && y.id !in ids
  {
    if s != [] {
      WithoutHas(s[1..], ids, y);
    }
  }

  lemma {:induction false} FindWithout<T>(s: seq<Slot<T>>, ids: set<nat>, id: nat)
    ensures Find(Without(s, ids), id) == if id in ids then None else Find(s, id)
  {
    if s != [] {
      var x, t := s[0], s[1..];
      assert s == [x] + t;
      hide Find, Without;
      FindWithout(t, ids, id);
      WithoutCons(x, t, ids);
    }
  }

  lemma {:induction false} WithoutTwice<T>(s: seq<Slot<T>>, a: set<nat>, b: set<nat>)
    ensures Without(Without(s, a), b) == Without(s, a + b)
  {
    if s != [] {
      var x, t := s[0], s[1..];
      assert s == [x] + t;
      hide Without;
      WithoutTwice(t, a, b);
      WithoutCons(x, t, a);
      WithoutCons(x, t, a + b);
      WithoutCons(x, Without(t, a), b);
    }
  }

  lemma {:induction false} WithoutNone<T>(s: seq<Slot<T>>)
    ensures Without(s, {}) == s
  {
    if s != [] {
      WithoutNone(s[1..]);
    }
  }

  // ---------------------------------------------------------------- eviction

  function Insert<T>(s: seq<Slot<T>>, x: Slot<T>): (r: seq<Slot<T>>)
    ensures |r| == |s| + 1
  {
    if s == [] || s[|s| - 1].expires <= x.expires then s + [x]
    else Insert(s[..|s| - 1], x) + [s[|s| - 1]]
  }

  /** A stable sort by expiry. */
  function ByExpiry<T>(s: seq<Slot<T>>): (r: seq<Slot<T>>)
    ensures |r| == |s|
  {
    if s == [] then [] else Insert(ByExpiry(s[..|s| - 1]), s[|s| - 1])
  }

  predicate Ascending<T>(s: seq<Slot<T>>) {
    forall i, j :: 0 <= i < j < |s| ==> s[i].expires <= s[j].expires
  }

  lemma {:induction false} InsertFacts<T>(s: seq<Slot<T>>, x: Slot<T>)
    requires Ascending(s)
    ensures Ascending(Insert(s, x)) && multiset(Insert(s, x)) == multiset(s) + multiset{x}
    ensures Ids(Insert(s, x)) == Ids(s) + {x.id} && |Insert(s, x)| == |s| + 1
    decreases |s|
  {
    hide Ids;
    IdsOne(x);
    if s == [] || s[|s| - 1].expires <= x.expires {
      IdsConcat(s, [x]);
    } else {
      var init, last := s[..|s| - 1], s[|s| - 1];
      assert s == init + [last];
      InsertFacts(init, x);
      IdsOne(last);
      IdsConcat(init, [last]);
      IdsConcat(Insert(init, x), [last]);
      InsertBelow(init, x, last);
    }
  }

  lemma IdsOne<T>(x: Slot<T>)
    ensures Ids([x]) == {x.id}
  {
  }

  lemma InsertBelow<T>(s: seq<Slot<T>>, x: Slot<T>, last: Slot<T>)
    requires multiset(Insert(s, x)) == multiset(s) + multiset{x} && x.expires <= last.expires
    requires forall y :: y in s ==> y.expires <= last.expires
    requires Ascending(Insert(s, x))
    ensures Ascending(Insert(s, x) + [last])
  {
    hide Insert;
    forall i | 0 <= i < |Insert(s, x)| ensures Insert(s, x)[i].expires <= last.expires {
      assert Insert(s, x)[i] in multiset(Insert(s, x));
    }
  }

  lemma {:induction false} SortFacts<T>(s: seq<Slot<T>>)
    ensures Ascending(ByExpiry(s)) && multiset(ByExpiry(s)) == multiset(s)
    ensures Ids(ByExpiry(s)) == Ids(s) && |ByExpiry(s)| == |s|
    decreases |s|
  {
    hide Ids, Insert, Ascending;
    if s == [] {
      SortNothing<T>();
    } else {
      var init, last := s[..|s| - 1], s[|s| - 1];
      assert s == init + [last];
      SortFacts(init);
      InsertFacts(ByExpiry(init), last);
      IdsOne(last);
      IdsConcat(init, [last]);
    }
  }

  lemma SortNothing<T>()
    ensures Ascending(ByExpiry<T>([]))
  {
  }

  /** The keys of the quarter that expires first. */
  function Oldest<T>(s: seq<Slot<T>>): set<nat> {
    Ids(ByExpiry(s)[..|s| / 4])
  }

  function Evicted<T>(s: seq<Slot<T>>): seq<Slot<T>> {
    Without(s, Oldest(s))
  }

  /** Where an entry sorts to decides whether it goes. */
  lemma Place<T>(s: seq<Slot<T>>, x: Slot<T>) returns (i: nat)
    requires x in s && Distinct(s)
    ensures |ByExpiry(s)| == |s| && i < |s| && ByExpiry(s)[i] == x
    ensures x.id in Oldest(s) <==> i < |s| / 4
  {
    hide Ids, ByExpiry, Ascending;
    var sorted := ByExpiry(s);
    var n := |s| / 4;
    SortFacts(s);
    assert x in multiset(sorted);
    i :| 0 <= i < |s| && sorted[i] == x;
    assert sorted == sorted[..n] + sorted[n..];
    DistinctPrefix(sorted[..n], sorted[n..]);
    if i < n {
      assert sorted[..n][i] == x;
      InIds(sorted[..n], x);
    } else {
      assert sorted[n..][i - n] == x;
      InIds(sorted[n..], x);
    }
  }

  lemma EvictedEarlier<T>(s: seq<Slot<T>>, x: Slot<T>, y: Slot<T>)
    requires Distinct(s) && x in s && y in s && x.id in Oldest(s) && y.id !in Oldest(s)
    ensures x.expires <= y.expires
  {
    hide Ids, ByExpiry, Oldest;
    SortFacts(s);
    var i := Place(s, x);
    var j := Place(s, y);
  }

  /** Exactly a quarter, rounded down, goes; nothing dropped expires later than anything kept. */
  lemma EvictionFacts<T>(s: seq<Slot<T>>)
    requires Distinct(s)
    ensures Distinct(Evicted(s)) && |Evicted(s)| == |s| - |s| / 4
    ensures forall x, y :: x in s && x !in Evicted(s) && y in Evicted(s) ==> x.expires <= y.expires
    ensures forall y :: y in Evicted(s) ==> y in s
  {
    hide Ids, ByExpiry, Without, Ascending;
    var sorted := ByExpiry(s);
    var n := |s| / 4;
    SortFacts(s);
    assert sorted == sorted[..n] + sorted[n..];
    DistinctPrefix(sorted[..n], sorted[n..]);
    IdsConcat(sorted[..n], sorted[n..]);
    WithoutFacts(s, Oldest(s));
    assert Evicted(s) == Without(s, Oldest(s));
    forall y | y in Evicted(s) ensures y in s {
      WithoutHas(s, Oldest(s), y);
    }
    forall x, y | x in s && x !in Evicted(s) && y in Evicted(s) ensures x.expires <= y.expires {
      WithoutHas(s, Oldest(s), x);
      WithoutHas(s, Oldest(s), y);
      EvictedEarlier(s, x, y);
    }
  }

  /** The entry just added at the end, expiring last, is never the one evicted. */
  lemma NewestStays<T>(s: seq<Slot<T>>, x: Slot<T>)
    requires Distinct(s + [x]) && forall y :: y in s ==> y.expires <= x.expires
    ensures x.id !in Oldest(s + [x])
  {
    hide Ids, Ascending;
    var all := s + [x];
    assert all[..|all| - 1] == s;
    SortFacts(s);
    SortFacts(all);
    var sorted := ByExpiry(s);
    if sorted != [] {
      assert sorted[|sorted| - 1] in multiset(sorted);
    }
    assert ByExpiry(all) == sorted + [x];
    var n := |all| / 4;
    assert ByExpiry(all) == ByExpiry(all)[..n] + ByExpiry(all)[n..];
    DistinctPrefix(ByExpiry(all)[..n], ByExpiry(all)[n..]);
    assert ByExpiry(all)[n..][|s| - n] == x;
    InIds(ByExpiry(all)[n..], x);
  }
}
