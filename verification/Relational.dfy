/**
 * The tables behind campaigns and contacts: rows with nullable link columns, foreign keys without
 * cascades, and SQL transactions that update or delete by condition.
 */
module Relational {
  import opened Options

  datatype Table =
    Campaigns | Contacts | Templates | Enrolments | Leads | Deals | Messages | Analyses | Followups | Jobs | Results

  /** The columns that refer to one of these tables. */
  datatype Column = CampaignId | ContactId | TemplateId | EnrolmentId | LeadId | MessageId | JobId

  datatype Key = Key(table: Table, id: nat)

  /** A link column that is NULL is absent from `links`; `data` is everything else in the row. */
  datatype Row = Row(links: map<Column, nat>, data: nat)

  type Db = map<Key, Row>

  function Target(c: Column): Table {
    match c
    case CampaignId => Campaigns
    case ContactId => Contacts
    case TemplateId => Templates
    case EnrolmentId => Enrolments
    case LeadId => Leads
    case MessageId => Messages
    case JobId => Jobs
  }

  /** The NOT NULL link columns. */
  function Required(t: Table): set<Column> {
    match t
    case Enrolments => {CampaignId, ContactId}
    case Leads => {ContactId}
    case Deals => {LeadId}
    case Messages => {ContactId}
    case Analyses => {MessageId, ContactId}
    case Followups => {EnrolmentId}
    case Results => {JobId}
    case Campaigns => {}
    case Contacts => {}
    case Templates => {}
    case Jobs => {}
  }

  function Nullable(t: Table): set<Column> {
    match t
    case Templates => {CampaignId}
    case Leads => {CampaignId, EnrolmentId}
    case Messages => {EnrolmentId, TemplateId}
    case Analyses => {EnrolmentId}
    case Followups => {TemplateId}
    case Jobs => {CampaignId}
    case Results => {ContactId}
    case Campaigns => {}
    case Contacts => {}
    case Enrolments => {}
    case Deals => {}
  }

  predicate Has(t: Table, c: Column) {
    c in Required(t) || c in Nullable(t)
  }

  predicate RowOk(db: Db, t: Table, row: Row) {
    && (forall c :: c in Required(t) ==> c in row.links)
    && (forall c :: c in row.links ==> Has(t, c) && Key(Target(c), row.links[c]) in db)
  }

  /** Every constraint of the schema holds: columns, NOT NULL, foreign keys. */
  predicate WellFormed(db: Db) {
    forall k :: k in db ==> RowOk(db, k.table, db[k])
  }

  // ---------------------------------------------------------------- statements

  /** SELECT id FROM table WHERE column = id. */
  function Ids(db: Db, t: Table, c: Column, id: nat): set<nat> {
    set k | k in db && k.table == t && c in db[k].links && db[k].links[c] == id :: k.id
  }

  datatype Cond = IdIn(ids: set<nat>) | LinkIn(column: Column, ids: set<nat>) | Either(a: Cond, b: Cond)

  /** `Skip` is a statement the program leaves out when there is nothing for it to do. */
  datatype Stmt = Update(table: Table, cond: Cond, clear: set<Column>) | Delete(table: Table, cond: Cond) | Skip

  predicate Holds(cond: Cond, id: nat, row: Row) {
    match cond
    case IdIn(ids) => id in ids
    case LinkIn(c, ids) => c in row.links && row.links[c] in ids
    case Either(a, b) => Holds(a, id, row) || Holds(b, id, row)
  }

  predicate Hit(s: Stmt, k: Key, row: Row) {
    !s.Skip? && k.table == s.table && Holds(s.cond, k.id, row)
  }

  /** What one statement does to one row. */
  function Touch(s: Stmt, k: Key, row: Row): Option<Row> {
    if !Hit(s, k, row) then Some(row)
    else if s.Delete? then None
    else Some(row.(links := row.links - s.clear))
  }

  function Effect(db: Db, s: Stmt): Db {
    map k | k in db && Touch(s, k, db[k]).Some? :: Touch(s, k, db[k]).value
  }

  /** The rows RETURNING reports. */
  function Hits(db: Db, s: Stmt): set<Key> {
    set k | k in db && Hit(s, k, db[k])
  }

  /** The tables after the first `n` statements. */
  function Stage(db: Db, stmts: seq<Stmt>, n: nat): Db
    requires n <= |stmts|
  {
    if n == 0 then db else Effect(Stage(db, stmts, n - 1), stmts[n - 1])
  }

  /** The database accepts every statement: its constraints hold after each one. */
  predicate Accepted(db: Db, stmts: seq<Stmt>) {
    forall n :: 0 <= n <= |stmts| ==> WellFormed(Stage(db, stmts, n))
  }

  class Store {
    var db: Db

    constructor (db: Db)
      ensures this.db == db
    {
      this.db := db;
    }

    /** Run the statements in order; roll back at the first one that breaks a constraint. */
    method Transaction(stmts: seq<Stmt>) returns (ok: bool, counts: seq<nat>)
      requires WellFormed(db)
      modifies this
      ensures ok <==> Accepted(old(db), stmts)
      ensures ok ==> db == Stage(old(db), stmts, |stmts|)
      ensures ok ==> |counts| == |stmts| && forall n :: 0 <= n < |stmts| ==>
                       counts[n] == |Hits(Stage(old(db), stmts, n), stmts[n])|
      ensures !ok ==> db == old(db)
      ensures WellFormed(db)
    {
      hide WellFormed, Effect, Hits, Stage;
      var before := db;
      counts := [];
      StageStarts(before, stmts);
      for n := 0 to |stmts|
        invariant |counts| == n && db == Stage(before, stmts, n)
        invariant forall m :: 0 <= m <= n ==> WellFormed(Stage(before, stmts, m))
        invariant forall m :: 0 <= m < n ==> counts[m] == |Hits(Stage(before, stmts, m), stmts[m])|
      {
        counts := counts + [|Hits(db, stmts[n])|];
        db := Effect(db, stmts[n]);
        StageNext(before, stmts, n);
        if !WellFormed(db) {
          assert !WellFormed(Stage(before, stmts, n + 1));
          db := before;
          return false, counts;
        }
      }
      ok := true;
    }
  }

  // ---------------------------------------------------------------- row by row

  /** What the first `n` statements do to one row, whatever the other rows are. */
  function RowAt(stmts: seq<Stmt>, n: nat, k: Key, row: Row): Option<Row>
    requires n <= |stmts|
  {
    if n == 0 then Some(row)
    else
      var r := RowAt(stmts, n - 1, k, row);
      if r.None? then None else Touch(stmts[n - 1], k, r.value)
  }

  lemma {:induction false} StageIsRowWise(db: Db, stmts: seq<Stmt>, n: nat, k: Key)
    requires n <= |stmts|
    ensures k in Stage(db, stmts, n) <==> k in db && RowAt(stmts, n, k, db[k]).Some?
    ensures k in Stage(db, stmts, n) ==> Stage(db, stmts, n)[k] == RowAt(stmts, n, k, db[k]).value
  {
    hide Touch;
    if n > 0 {
      StageIsRowWise(db, stmts, n - 1, k);
    }
  }

  /** Statements about other tables leave a row alone. */
  lemma {:induction false} RowSkips(stmts: seq<Stmt>, m: nat, n: nat, k: Key, row: Row)
    requires m <= n <= |stmts|
    requires forall i :: m <= i < n ==> stmts[i].Skip? || stmts[i].table != k.table
    ensures RowAt(stmts, n, k, row) == RowAt(stmts, m, k, row)
    decreases n
  {
    if m < n {
      RowSkips(stmts, m, n - 1, k, row);
    }
  }

  lemma OneTouch(stmts: seq<Stmt>, i: nat, k: Key, row: Row)
    requires i < |stmts|
    requires forall j :: 0 <= j < |stmts| && j != i ==> stmts[j].Skip? || stmts[j].table != k.table
    ensures RowAt(stmts, |stmts|, k, row) == Touch(stmts[i], k, row)
  {
    hide Touch;
    RowSkips(stmts, 0, i, k, row);
    RowSkips(stmts, i + 1, |stmts|, k, row);
  }

  lemma TwoTouches(stmts: seq<Stmt>, i: nat, j: nat, k: Key, row: Row)
    requires i < j < |stmts|
    requires forall m :: 0 <= m < |stmts| && m != i && m != j ==> stmts[m].Skip? || stmts[m].table != k.table
    ensures var r := Touch(stmts[i], k, row);
            RowAt(stmts, |stmts|, k, row) == if r.None? then None else Touch(stmts[j], k, r.value)
  {
    hide Touch;
    RowSkips(stmts, 0, i, k, row);
    RowSkips(stmts, i + 1, j, k, row);
    RowSkips(stmts, j + 1, |stmts|, k, row);
  }

  /** The first statement about a table finds its rows as they were. */
  lemma HitsAtFirst(db: Db, stmts: seq<Stmt>, n: nat)
    requires n < |stmts| && !stmts[n].Skip?
    requires forall j :: 0 <= j < n ==> stmts[j].Skip? || stmts[j].table != stmts[n].table
    ensures Hits(Stage(db, stmts, n), stmts[n]) == Hits(db, stmts[n])
  {
    hide Stage, RowAt, Holds;
    var d := Stage(db, stmts, n);
    forall k: Key | k.table == stmts[n].table ensures k in d <==> k in db {
      StageIsRowWise(db, stmts, n, k);
      if k in db {
        RowSkips(stmts, 0, n, k, db[k]);
        NoRowYet(stmts, k, db[k]);
      }
    }
    forall k | k in d && k.table == stmts[n].table ensures d[k] == db[k] {
      StageIsRowWise(db, stmts, n, k);
      RowSkips(stmts, 0, n, k, db[k]);
      NoRowYet(stmts, k, db[k]);
    }
  }

  lemma NoRowYet(stmts: seq<Stmt>, k: Key, row: Row)
    ensures RowAt(stmts, 0, k, row) == Some(row)
  {
  }

  /** Rows only lose links; payloads stay. */
  ghost predicate Within(row: Row, row': Row) {
    row'.data == row.data && forall c :: c in row'.links ==> c in row.links && row'.links[c] == row.links[c]
  }

  ghost predicate Shrinks(db: Db, db': Db) {
    forall k :: k in db' ==> k in db && Within(db[k], db'[k])
  }

  lemma {:induction false} StageShrinks(db: Db, stmts: seq<Stmt>, n: nat)
    requires n <= |stmts|
    ensures Shrinks(db, Stage(db, stmts, n))
  {
    if n > 0 {
      StageShrinks(db, stmts, n - 1);
    }
  }

  /** A row that matches a selection late in the transaction matched it at the start. */
  lemma MatchIds(db: Db, stmts: seq<Stmt>, n: nat, t: Table, c: Column, id: nat)
    requires n <= |stmts|
    ensures var d := Stage(db, stmts, n);
            forall k :: k in d && k.table == t && Holds(LinkIn(c, {id}), k.id, d[k]) ==> k.id in Ids(db, t, c, id)
  {
    hide Stage;
    StageShrinks(db, stmts, n);
  }

  // ---------------------------------------------------------------- foreign keys, statement by statement

  /** No row of table `t` refers through `c` to one of `ids`. */
  ghost predicate Gone(db: Db, t: Table, c: Column, ids: set<nat>) {
    forall k :: k in db && k.table == t && c in db[k].links ==> db[k].links[c] !in ids
  }

  predicate Covers(cond: Cond, c: Column, ids: set<nat>) {
    match cond
    case IdIn(_) => false
    case LinkIn(c', ids') => c' == c && ids' == ids
    case Either(a, b) => Covers(a, c, ids) || Covers(b, c, ids)
  }

  /** After this statement no row of `t` refers through `c` to one of `ids`. */
  predicate Purges(s: Stmt, t: Table, c: Column, ids: set<nat>) {
    ids == {} || (!s.Skip? && s.table == t && Covers(s.cond, c, ids) && (s.Delete? || c in s.clear))
  }

  lemma {:induction false} CoversHolds(cond: Cond, c: Column, ids: set<nat>, id: nat, row: Row)
    requires Covers(cond, c, ids) && c in row.links && row.links[c] in ids
    ensures Holds(cond, id, row)
  {
    match cond
    case LinkIn(_, _) =>
    case Either(a, b) =>
      if Covers(a, c, ids) {
        CoversHolds(a, c, ids, id, row);
      } else {
        CoversHolds(b, c, ids, id, row);
      }
  }

  lemma PurgeDone(db: Db, s: Stmt, t: Table, c: Column, ids: set<nat>)
    requires Purges(s, t, c, ids)
    ensures Gone(Effect(db, s), t, c, ids)
  {
    hide Covers, Holds;
    var db' := Effect(db, s);
    forall k | k in db' && k.table == t && c in db'[k].links ensures db'[k].links[c] !in ids {
      if ids != {} && c in db[k].links && db[k].links[c] in ids {
        CoversHolds(s.cond, c, ids, k.id, db[k]);
      }
    }
  }

  lemma GoneKept(db: Db, s: Stmt, t: Table, c: Column, ids: set<nat>)
    requires Gone(db, t, c, ids)
    ensures Gone(Effect(db, s), t, c, ids)
  {
    hide Hit;
  }

  lemma {:induction false} GoneAt(db: Db, stmts: seq<Stmt>, m: nat, n: nat, t: Table, c: Column, ids: set<nat>)
    requires m < n <= |stmts| && Purges(stmts[m], t, c, ids)
    ensures Gone(Stage(db, stmts, n), t, c, ids)
    decreases n
  {
    hide Gone, Effect, Purges;
    if n == m + 1 {
      PurgeDone(Stage(db, stmts, m), stmts[m], t, c, ids);
    } else {
      GoneAt(db, stmts, m, n - 1, t, c, ids);
      GoneKept(Stage(db, stmts, n - 1), stmts[n - 1], t, c, ids);
    }
  }

  /** Nulling nullable columns breaks nothing. */
  lemma UpdateKeeps(db: Db, s: Stmt)
    requires WellFormed(db) && (s.Skip? || (s.Update? && s.clear !! Required(s.table)))
    ensures WellFormed(Effect(db, s))
  {
    hide Holds, Has, Target;
    var db' := Effect(db, s);
    assert db'.Keys == db.Keys;
    forall k | k in db' ensures RowOk(db', k.table, db'[k]) {
      assert RowOk(db, k.table, db[k]);
    }
  }

  /** A delete breaks nothing when no column still refers to what it deletes. */
  lemma DeleteKeeps(db: Db, s: Stmt, ids: set<nat>)
    requires WellFormed(db) && s.Delete?
    requires forall k :: k in db && Hit(s, k, db[k]) ==> k.id in ids
    requires forall t, c :: Has(t, c) && Target(c) == s.table ==> Gone(db, t, c, ids)
    ensures WellFormed(Effect(db, s))
  {
    hide Holds, Has, Target, Required;
    var db' := Effect(db, s);
    forall k | k in db' ensures RowOk(db', k.table, db'[k]) {
      assert RowOk(db, k.table, db[k]);
      assert db'[k] == db[k];
      forall c | c in db[k].links ensures Key(Target(c), db[k].links[c]) in db' {
        assert Has(k.table, c);
        var to := Key(Target(c), db[k].links[c]);
        if Target(c) == s.table {
          assert Gone(db, k.table, c, ids);
        }
      }
    }
  }

  lemma StageStarts(db: Db, stmts: seq<Stmt>)
    ensures Stage(db, stmts, 0) == db
  {
  }

  lemma StageNext(db: Db, stmts: seq<Stmt>, n: nat)
    requires n < |stmts|
    ensures Stage(db, stmts, n + 1) == Effect(Stage(db, stmts, n), stmts[n])
  {
  }
}
