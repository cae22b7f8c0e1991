/** `findById`, `update`, `remove` and `invalidate` over a table and its cache. */
module BaseService {
  import opened Options
  import opened Cache

  datatype Store<T> = Store(table: map<nat, T>, cache: seq<Slot<T>>)

  function Lookup<T>(table: map<nat, T>, id: nat): Option<T> {
    if id in table then Some(table[id]) else None
  }

  /** The cached copy, unless it has expired. */
  function Live<T>(s: Store<T>, id: nat, now: nat): Option<T> {
    var slot := Find(s.cache, id);
    if slot.Some? && slot.value.expires > now then Some(slot.value.data) else None
  }

  /** What a read returns: the cached copy, else the row, else not found. */
  function Served<T>(s: Store<T>, id: nat, now: nat): Option<T> {
    OrElse(Live(s, id, now), Lookup(s.table, id))
  }

  function Trimmed<T>(cache: seq<Slot<T>>): seq<Slot<T>> {
    if |cache| > CAPACITY then Evicted(cache) else cache
  }

  function AfterRead<T>(s: Store<T>, id: nat, now: nat): Store<T> {
    if Live(s, id, now).Some? || id !in s.table then s
    else s.(cache := Trimmed(Put(s.cache, Slot(id, s.table[id], now + CACHE_TTL))))
  }

  function Forget<T>(s: Store<T>, id: nat): Store<T> {
    s.(cache := Without(s.cache, {id}))
  }

  function Rewritten<T>(s: Store<T>, id: nat, row: Option<T>): Store<T> {
    s.(table := if row.Some? then s.table[id := row.value] else s.table - {id})
  }

  // ---------------------------------------------------------------- what every operation keeps

  ghost predicate Sane<T>(s: Store<T>, now: nat) {
    Distinct(s.cache) && |s.cache| <= CAPACITY && forall x :: x in s.cache ==> x.expires <= now + CACHE_TTL
  }

  /** A live copy of `id` is the row. */
  ghost predicate Fresh<T>(s: Store<T>, id: nat, now: nat) {
    Live(s, id, now).Some? ==> Live(s, id, now) == Lookup(s.table, id)
  }

  ghost predicate Coherent<T>(s: Store<T>, now: nat) {
    forall id :: Fresh(s, id, now)
  }

  /** Nothing but `id` changed, except that entries may have been evicted. */
  ghost predicate OnlyAbout<T>(s: Store<T>, s': Store<T>, id: nat) {
    forall i :: i != id ==> Unrelated(s, s', i)
  }

  ghost predicate Unrelated<T>(s: Store<T>, s': Store<T>, i: nat) {
    && Lookup(s'.table, i) == Lookup(s.table, i)
    && (Find(s'.cache, i) == None || Find(s'.cache, i) == Find(s.cache, i))
  }

  /** A copy only gets staler if somebody writes: freshness survives the clock. */
  lemma LaterIsFresh<T>(s: Store<T>, now: nat, later: nat)
    requires now <= later
    ensures Sane(s, now) ==> Sane(s, later)
    ensures forall id :: Fresh(s, id, now) ==> Fresh(s, id, later)
  {
  }

  lemma TrimFacts<T>(cache: seq<Slot<T>>, x: Slot<T>, id: nat)
    requires Distinct(cache) && |cache| <= CAPACITY && forall y :: y in cache ==> y.expires <= x.expires
    ensures var c := Trimmed(Put(cache, x));
            && Distinct(c) && |c| <= CAPACITY
            && (forall y :: y in c ==> y == x || y in cache)
            && Find(c, x.id) == Some(x)
            && (id != x.id ==> Find(c, id) == None || Find(c, id) == Find(cache, id))
  {
    hide Put, Find, Oldest, Ids, Distinct;
    var put := Put(cache, x);
    PutSize(cache, x);
    PutMembers(cache, x);
    FindPut(cache, x, id);
    FindPut(cache, x, x.id);
    if |put| > CAPACITY {
      assert put == cache + [x];
      EvictionFacts(put);
      NewestStays(cache, x);
      FindWithout(put, Oldest(put), x.id);
      FindWithout(put, Oldest(put), id);
    }
  }

  /** A read leaves the table alone, keeps what it served cached, and at most evicts other entries. */
  lemma ReadFacts<T>(s: Store<T>, id: nat, now: nat)
    requires Sane(s, now)
    ensures var s' := AfterRead(s, id, now);
            Sane(s', now) && s'.table == s.table && Live(s', id, now) == Served(s, id, now) && OnlyAbout(s, s', id)
  {
    hide Put, Find, Trimmed, Distinct;
    var s' := AfterRead(s, id, now);
    if Live(s, id, now).None? && id in s.table {
      var x := Slot(id, s.table[id], now + CACHE_TTL);
      TrimFacts(s.cache, x, id);
      forall i | i != id ensures Unrelated(s, s', i) {
        TrimFacts(s.cache, x, i);
      }
    }
  }

  lemma ForgetFacts<T>(s: Store<T>, id: nat, now: nat)
    requires Sane(s, now)
    ensures var s' := Forget(s, id);
            Sane(s', now) && s'.table == s.table && Live(s', id, now) == None && OnlyAbout(s, s', id)
  {
    hide Find, Without, Ids;
    var s' := Forget(s, id);
    WithoutFacts(s.cache, {id});
    IdsCount(s'.cache);
    ForgetShrinks(s.cache, id);
    forall x | x in s'.cache ensures x.expires <= now + CACHE_TTL {
      WithoutHas(s.cache, {id}, x);
    }
    FindWithout(s.cache, {id}, id);
    forall i | i != id ensures Unrelated(s, s', i) {
      FindWithout(s.cache, {id}, i);
    }
  }

  lemma {:induction false} ForgetShrinks<T>(cache: seq<Slot<T>>, id: nat)
    ensures |Without(cache, {id})| <= |cache|
  {
    if cache != [] {
      ForgetShrinks(cache[1..], id);
    }
  }

  // ---------------------------------------------------------------- the operations

  /** `Write` is a service's own SQL on one row, followed by `invalidate`; None deletes the row. */
  datatype Request<!T> =
    | Read(id: nat)
    | Update(id: nat, change: T -> T)
    | Remove(id: nat)
    | Write(id: nat, row: Option<T>)

  function Change<T>(table: map<nat, T>, id: nat, change: T -> T): Option<T> {
    if id in table then Some(change(table[id])) else None
  }

  function Handle<T>(s: Store<T>, op: Request<T>, now: nat): Store<T> {
    var read := AfterRead(s, op.id, now);
    match op
    case Read(id) => read
    case Update(id, change) =>
      if Served(s, id, now).None? then read
      else AfterRead(Forget(Rewritten(read, id, Change(s.table, id, change)), id), id, now)
    case Remove(id) =>
      if Served(s, id, now).None? then read else Forget(Rewritten(read, id, None), id)
    case Write(id, row) => Forget(Rewritten(s, id, row), id)
  }

  /** Every operation keeps the cache within bounds and, if it was, a true copy of the table. */
  lemma HandleKeeps<T>(s: Store<T>, op: Request<T>, now: nat)
    requires Sane(s, now)
    ensures Sane(Handle(s, op, now), now)
    ensures OnlyAbout(s, Handle(s, op, now), op.id)
    ensures Fresh(s, op.id, now) ==> Fresh(Handle(s, op, now), op.id, now)
    ensures Coherent(s, now) ==> Coherent(Handle(s, op, now), now)
  {
    hide AfterRead, Forget;
    HandleIsLocal(s, op, now);
    var s' := Handle(s, op, now);
    if Coherent(s, now) {
      forall i ensures Fresh(s', i, now) {
        assert Fresh(s, i, now);
        if i != op.id {
          assert Unrelated(s, s', i);
        }
      }
    }
  }

  lemma AboutTrans<T>(a: Store<T>, b: Store<T>, c: Store<T>, id: nat)
    requires OnlyAbout(a, b, id) && OnlyAbout(b, c, id)
    ensures OnlyAbout(a, c, id)
  {
    hide Find;
    forall i | i != id ensures Unrelated(a, c, i) {
      assert Unrelated(a, b, i) && Unrelated(b, c, i);
    }
  }

  lemma RewriteFacts<T>(s: Store<T>, id: nat, row: Option<T>)
    ensures OnlyAbout(s, Rewritten(s, id, row), id) && Lookup(Rewritten(s, id, row).table, id) == row
  {
  }

  lemma HandleIsLocal<T>(s: Store<T>, op: Request<T>, now: nat)
    requires Sane(s, now)
    ensures Sane(Handle(s, op, now), now)
    ensures OnlyAbout(s, Handle(s, op, now), op.id)
    ensures Fresh(s, op.id, now) ==> Fresh(Handle(s, op, now), op.id, now)
  {
    hide AfterRead, Forget, Find;
    ReadFacts(s, op.id, now);
    var read := AfterRead(s, op.id, now);
    match op
    case Read(id) =>
    case Update(id, change) =>
      var written := Rewritten(read, id, Change(s.table, id, change));
      RewriteFacts(read, id, Change(s.table, id, change));
      ForgetFacts(written, id, now);
      ReadFacts(Forget(written, id), id, now);
      AboutTrans(s, read, written, id);
      AboutTrans(s, written, Forget(written, id), id);
      AboutTrans(s, Forget(written, id), AfterRead(Forget(written, id), id, now), id);
    case Remove(id) =>
      var written := Rewritten(read, id, None);
      RewriteFacts(read, id, None);
      ForgetFacts(written, id, now);
      AboutTrans(s, read, written, id);
      AboutTrans(s, written, Forget(written, id), id);
    case Write(id, row) =>
      RewriteFacts(s, id, row);
      ForgetFacts(Rewritten(s, id, row), id, now);
      AboutTrans(s, Rewritten(s, id, row), Forget(Rewritten(s, id, row), id), id);
  }

  /** What each operation writes to the table: its own row, and nothing where there is none to update. */
  lemma HandleWrites<T>(s: Store<T>, op: Request<T>, now: nat)
    ensures var t := Handle(s, op, now).table; var id := op.id;
            && (op.Read? ==> t == s.table)
            && (op.Update? ==> t == if id in s.table then s.table[id := op.change(s.table[id])] else s.table)
            && (op.Remove? ==> t.Keys == s.table.Keys - {id} && forall i :: i in t ==> t[i] == s.table[i])
            && (op.Write? ==> Lookup(t, id) == op.row && forall i :: i != id ==> Lookup(t, i) == Lookup(s.table, i))
  {
    hide Find, Put, Trimmed, Without;
  }

  /** A row read from the table is served from the cache for a minute, and not a moment longer. */
  lemma ReadLasts<T>(s: Store<T>, id: nat, now: nat, later: nat)
    requires Sane(s, now) && Live(s, id, now).None? && id in s.table
    ensures Live(AfterRead(s, id, now), id, later) == if later < now + 60_000 then Some(s.table[id]) else None
  {
    hide Put, Find, Trimmed, Distinct;
    TrimFacts(s.cache, Slot(id, s.table[id], now + CACHE_TTL), id);
  }

  /** While fewer than 500 entries are cached a read drops none of them. */
  lemma ReadKeepsOthers<T>(s: Store<T>, id: nat, now: nat, i: nat)
    requires Sane(s, now) && |s.cache| < 500 && i != id
    ensures Find(AfterRead(s, id, now).cache, i) == Find(s.cache, i)
  {
    hide Find, Put, Evicted, Distinct;
    if Live(s, id, now).None? && id in s.table {
      var x := Slot(id, s.table[id], now + CACHE_TTL);
      PutSize(s.cache, x);
      FindPut(s.cache, x, i);
    }
  }

  // ---------------------------------------------------------------- any run

  /** The store after the first `n` operations, each at its own time. */
  function Handled<T>(s: Store<T>, ops: seq<(Request<T>, nat)>, n: nat): Store<T>
    requires n <= |ops|
  {
    if n == 0 then s else Handle(Handled(s, ops, n - 1), ops[n - 1].0, ops[n - 1].1)
  }

  predicate InOrder<T>(ops: seq<(Request<T>, nat)>, start: nat) {
    && (forall i :: 0 <= i < |ops| ==> start <= ops[i].1)
    && (forall i, j :: 0 <= i < j < |ops| ==> ops[i].1 <= ops[j].1)
  }

  function TimeOf<T>(ops: seq<(Request<T>, nat)>, start: nat, n: nat): nat
    requires n <= |ops|
  {
    if n == 0 then start else ops[n - 1].1
  }

  lemma {:induction false} RunKeeps<T>(s: Store<T>, ops: seq<(Request<T>, nat)>, start: nat, n: nat)
    requires Sane(s, start) && Coherent(s, start) && InOrder(ops, start) && n <= |ops|
    ensures Sane(Handled(s, ops, n), TimeOf(ops, start, n)) && Coherent(Handled(s, ops, n), TimeOf(ops, start, n))
  {
    hide Sane, Handle, Fresh;
    if n > 0 {
      RunKeeps(s, ops, start, n - 1);
      var before := Handled(s, ops, n - 1);
      LaterIsFresh(before, TimeOf(ops, start, n - 1), ops[n - 1].1);
      HandleKeeps(before, ops[n - 1].0, ops[n - 1].1);
    }
  }

  /** After any run of these operations, a read returns what the table holds, and the cache is in bounds. */
  lemma ReadsServeTheTable<T>(s: Store<T>, ops: seq<(Request<T>, nat)>, start: nat, id: nat, now: nat)
    requires Sane(s, start) && Coherent(s, start) && InOrder(ops, start) && TimeOf(ops, start, |ops|) <= now
    ensures var s' := Handled(s, ops, |ops|); Served(s', id, now) == Lookup(s'.table, id) && |s'.cache| <= 500
  {
    hide Handle, Live;
    RunKeeps(s, ops, start, |ops|);
    var s' := Handled(s, ops, |ops|);
    LaterIsFresh(s', TimeOf(ops, start, |ops|), now);
    assert Fresh(s', id, TimeOf(ops, start, |ops|));
  }

  // ---------------------------------------------------------------- the service

  class Service<T> {
    var table: map<nat, T>
    var cache: seq<Slot<T>>

    constructor (table: map<nat, T>)
      ensures State() == Store(table, []) && Sane(State(), 0) && Coherent(State(), 0)
    {
      this.table, this.cache := table, [];
    }

    ghost function State(): Store<T>
      reads this
    {
      Store(table, cache)
    }

    /** Drops the quarter of the entries that expires first. */
    method EvictOldest()
      modifies this`cache
      ensures cache == Evicted(old(cache))
    {
      hide ByExpiry, Without;
      var entries := ByExpiry(cache);
      var toRemove := |entries| / 4;
      WithoutNone(cache);
      NoIds<T>();
      for i := 0 to toRemove
        invariant toRemove == |entries| / 4 && cache == Without(old(cache), Ids(entries[..i]))
      {
        assert entries[..i + 1] == entries[..i] + [entries[i]];
        IdsConcat(entries[..i], [entries[i]]);
        IdsOne(entries[i]);
        WithoutTwice(old(cache), Ids(entries[..i]), {entries[i].id});
        cache := Without(cache, {entries[i].id});
      }
    }

    method FindById(id: nat, now: nat) returns (row: Option<T>)
      modifies this`cache
      ensures row == Served(old(State()), id, now)
      ensures State() == Handle(old(State()), Read(id), now)
    {
      var cached := Find(cache, id);
      if cached.Some? && cached.value.expires > now {
        return Some(cached.value.data);
      }
      if id !in table {
        return None;
      }
      cache := Put(cache, Slot(id, table[id], now + CACHE_TTL));
      if |cache| > CAPACITY {
        EvictOldest();
      }
      return Some(table[id]);
    }

    method Update(id: nat, change: T -> T, now: nat) returns (row: Option<T>)
      modifies this
      ensures State() == Handle(old(State()), Request.Update(id, change), now)
      ensures row == if Served(old(State()), id, now).None? then None else Lookup(table, id)
      ensures table == if id in old(table) then old(table)[id := change(old(table)[id])] else old(table)
    {
      hide Find, Without, Trimmed, Put;
      row := FindById(id, now);
      if row.None? {
        return;
      }
      if id in table {
        table := table[id := change(table[id])];
      }
      assert old(table) - {id} == old(table) || id in old(table);
      FindWithout(cache, {id}, id);
      cache := Without(cache, {id});
      row := FindById(id, now);
    }

    method Remove(id: nat, now: nat) returns (found: bool)
      modifies this
      ensures State() == Handle(old(State()), Request.Remove(id), now)
      ensures found <==> Served(old(State()), id, now).Some?
      ensures table.Keys == old(table).Keys - {id} && forall i :: i in table ==> table[i] == old(table)[i]
    {
      var row := FindById(id, now);
      if row.None? {
        return false;
      }
      table := table - {id};
      cache := Without(cache, {id});
      return true;
    }

    method Invalidate(id: nat)
      modifies this`cache
      ensures State() == Forget(old(State()), id)
    {
      cache := Without(cache, {id});
    }
  }
}
