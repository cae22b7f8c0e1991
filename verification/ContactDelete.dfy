/** `deleteContact`: when the foreign keys allow it, and exactly which rows go. */
module ContactDelete {
  import opened Options
  import opened Relational
  import CampaignDelete

  function Script(db: Db, id: nat): (stmts: seq<Stmt>)
    ensures |stmts| == 9
  {
    var enrolments := Ids(db, Enrolments, ContactId, id);
    var leads := Ids(db, Leads, ContactId, id);
    [ if leads != {} then Delete(Deals, LinkIn(LeadId, leads)) else Skip,
      Delete(Analyses, LinkIn(ContactId, {id})),
      if enrolments != {} then Delete(Analyses, LinkIn(EnrolmentId, enrolments)) else Skip,
      if enrolments != {} then Delete(Followups, LinkIn(EnrolmentId, enrolments)) else Skip,
      Delete(Leads, LinkIn(ContactId, {id})),
      Delete(Messages, LinkIn(ContactId, {id})),
      Delete(Enrolments, LinkIn(ContactId, {id})),
      Update(Results, LinkIn(ContactId, {id}), {ContactId}),
      Delete(Contacts, IdIn({id})) ]
  }

  // ---------------------------------------------------------------- what the operation is for

  predicate LinkIs(row: Row, c: Column, id: nat) {
    c in row.links && row.links[c] == id
  }

  /** `row` refers through `c` to a row of this contact. */
  predicate ToContacts(db: Db, id: nat, row: Row, c: Column) {
    && c in row.links
    && var k := Key(Target(c), row.links[c]);
       k in db && LinkIs(db[k], ContactId, id)
  }

  /** The contact, its leads, messages, enrolments and analyses; its leads' deals; its enrolments' follow-ups. */
  predicate Goes(db: Db, id: nat, k: Key)
    requires k in db
  {
    match k.table
    case Contacts => k.id == id
    case Leads => LinkIs(db[k], ContactId, id)
    case Messages => LinkIs(db[k], ContactId, id)
    case Enrolments => LinkIs(db[k], ContactId, id)
    case Analyses => LinkIs(db[k], ContactId, id) || ToContacts(db, id, db[k], EnrolmentId)
    case Deals => ToContacts(db, id, db[k], LeadId)
    case Followups => ToContacts(db, id, db[k], EnrolmentId)
    case _ => false
  }

  /** A scrape result loses its link to the contact; nothing else changes. */
  function Detached(id: nat, t: Table, row: Row): Row {
    if t == Results && LinkIs(row, ContactId, id) then row.(links := row.links - {ContactId}) else row
  }

  /** The database without the contact. */
  function Without(db: Db, id: nat): Db {
    map k | k in db && !Goes(db, id, k) :: Detached(id, k.table, db[k])
  }

  /**
   * No row of another contact hangs off one of this contact's enrolments or messages: what a caller
   * could check before the call.
   */
  predicate Clean(db: Db, id: nat) {
    forall k :: k in db && k.table in {Leads, Messages, Analyses} ==> RowClean(db, id, k)
  }

  predicate RowClean(db: Db, id: nat, k: Key)
    requires k in db
  {
    || LinkIs(db[k], ContactId, id)
    || (if k.table == Analyses then
          !ToContacts(db, id, db[k], MessageId) || ToContacts(db, id, db[k], EnrolmentId)
        else !ToContacts(db, id, db[k], EnrolmentId))
  }

  // ---------------------------------------------------------------- rows, one at a time

  lemma IdsAreTheirs(db: Db, id: nat)
    ensures forall x :: x in Ids(db, Enrolments, ContactId, id) <==>
              Key(Enrolments, x) in db && LinkIs(db[Key(Enrolments, x)], ContactId, id)
    ensures forall x :: x in Ids(db, Leads, ContactId, id) <==>
              Key(Leads, x) in db && LinkIs(db[Key(Leads, x)], ContactId, id)
  {
    forall x | Key(Enrolments, x) in db && LinkIs(db[Key(Enrolments, x)], ContactId, id)
      ensures x in Ids(db, Enrolments, ContactId, id)
    {
      assert Key(Enrolments, x).id == x;
    }
    forall x | Key(Leads, x) in db && LinkIs(db[Key(Leads, x)], ContactId, id)
      ensures x in Ids(db, Leads, ContactId, id)
    {
      assert Key(Leads, x).id == x;
    }
  }

  function Fate(db: Db, id: nat, k: Key): Option<Row>
    requires k in db
  {
    if Goes(db, id, k) then None else Some(Detached(id, k.table, db[k]))
  }

  lemma OwnRowFate(db: Db, id: nat, k: Key)
    requires k in db && k.table in {Leads, Messages, Enrolments, Contacts, Results}
    ensures RowAt(Script(db, id), 9, k, db[k]) == Fate(db, id, k)
  {
    hide Ids, RowAt;
    var i := match k.table case Leads => 4 case Messages => 5 case Enrolments => 6 case Results => 7 case _ => 8;
    OneTouch(Script(db, id), i, k, db[k]);
  }

  lemma DependentFate(db: Db, id: nat, k: Key)
    requires k in db && k.table in {Deals, Followups}
    ensures RowAt(Script(db, id), 9, k, db[k]) == Fate(db, id, k)
  {
    hide Ids, RowAt;
    IdsAreTheirs(db, id);
    OneTouch(Script(db, id), if k.table == Deals then 0 else 3, k, db[k]);
  }

  lemma AnalysisFate(db: Db, id: nat, k: Key)
    requires k in db && k.table == Analyses
    ensures RowAt(Script(db, id), 9, k, db[k]) == Fate(db, id, k)
  {
    hide Ids, RowAt;
    IdsAreTheirs(db, id);
    TwoTouches(Script(db, id), 1, 2, k, db[k]);
  }

  lemma OtherFate(db: Db, id: nat, k: Key)
    requires k in db && k.table in {Campaigns, Templates, Jobs}
    ensures RowAt(Script(db, id), 9, k, db[k]) == Fate(db, id, k)
  {
    hide Ids;
    RowSkips(Script(db, id), 0, 9, k, db[k]);
  }

  lemma RowFate(db: Db, id: nat, k: Key)
    requires k in db
    ensures RowAt(Script(db, id), 9, k, db[k]) == Fate(db, id, k)
  {
    hide Script, RowAt, Fate;
    match k.table
    case Deals => DependentFate(db, id, k);
    case Followups => DependentFate(db, id, k);
    case Analyses => AnalysisFate(db, id, k);
    case Campaigns => OtherFate(db, id, k);
    case Templates => OtherFate(db, id, k);
    case Jobs => OtherFate(db, id, k);
    case _ => OwnRowFate(db, id, k);
  }

  /** If the statements all run, exactly this contact's rows are gone. */
  lemma DeleteIsExact(db: Db, id: nat)
    ensures Stage(db, Script(db, id), 9) == Without(db, id)
  {
    hide Script, RowAt, Goes, Detached, Stage;
    var d := Stage(db, Script(db, id), 9);
    forall k ensures k in d <==> k in Without(db, id) {
      StageIsRowWise(db, Script(db, id), 9, k);
      if k in db {
        RowFate(db, id, k);
      }
    }
    forall k | k in d ensures d[k] == Without(db, id)[k] {
      StageIsRowWise(db, Script(db, id), 9, k);
      RowFate(db, id, k);
    }
  }

  // ---------------------------------------------------------------- foreign keys

  lemma DeleteSafely(db: Db, id: nat, n: nat, ids: set<nat>)
    requires n < 9 && WellFormed(Stage(db, Script(db, id), n))
    requires var s := Script(db, id)[n]; var d := Stage(db, Script(db, id), n);
             && s.Delete?
             && (forall k :: k in d && Hit(s, k, d[k]) ==> k.id in ids)
             && (forall t, c :: Has(t, c) && Target(c) == s.table ==> Gone(d, t, c, ids))
    ensures WellFormed(Stage(db, Script(db, id), n + 1))
  {
    hide Script, Stage, WellFormed, Hit, Gone, Has;
    StageNext(db, Script(db, id), n);
    DeleteKeeps(Stage(db, Script(db, id), n), Script(db, id)[n], ids);
  }

  lemma SkipSafely(db: Db, id: nat, n: nat)
    requires n < 9 && WellFormed(Stage(db, Script(db, id), n))
    requires var s := Script(db, id)[n]; s.Skip? || (s.Update? && s.clear !! Required(s.table))
    ensures WellFormed(Stage(db, Script(db, id), n + 1))
  {
    hide Script, Stage, WellFormed;
    StageNext(db, Script(db, id), n);
    UpdateKeeps(Stage(db, Script(db, id), n), Script(db, id)[n]);
  }

  /** Nothing refers to deals, analyses or follow-ups, and scrape results are only detached. */
  lemma LeafStage(db: Db, id: nat, n: nat)
    requires (n < 4 || n == 7) && WellFormed(Stage(db, Script(db, id), n))
    ensures WellFormed(Stage(db, Script(db, id), n + 1))
  {
    hide Stage, WellFormed, Ids, Hit, Gone;
    if Script(db, id)[n].Skip? || n == 7 {
      SkipSafely(db, id, n);
    } else {
      DeleteSafely(db, id, n, set k | k in Stage(db, Script(db, id), n) :: k.id);
    }
  }

  lemma LeadsStage(db: Db, id: nat)
    requires WellFormed(Stage(db, Script(db, id), 4))
    ensures WellFormed(Stage(db, Script(db, id), 5))
  {
    hide Stage, WellFormed, Ids, Gone;
    var ids := Ids(db, Leads, ContactId, id);
    MatchIds(db, Script(db, id), 4, Leads, ContactId, id);
    GoneAt(db, Script(db, id), 0, 4, Deals, LeadId, ids);
    DeleteSafely(db, id, 4, ids);
  }

  lemma ContactStage(db: Db, id: nat)
    requires WellFormed(Stage(db, Script(db, id), 8))
    ensures WellFormed(Stage(db, Script(db, id), 9))
  {
    hide Stage, WellFormed, Ids, Gone;
    GoneAt(db, Script(db, id), 1, 8, Analyses, ContactId, {id});
    GoneAt(db, Script(db, id), 4, 8, Leads, ContactId, {id});
    GoneAt(db, Script(db, id), 5, 8, Messages, ContactId, {id});
    GoneAt(db, Script(db, id), 6, 8, Enrolments, ContactId, {id});
    GoneAt(db, Script(db, id), 7, 8, Results, ContactId, {id});
    DeleteSafely(db, id, 8, {id});
  }

  /** A row still there, whose NOT NULL contact is not this one, had another contact from the start. */
  lemma OthersOnly(db: Db, id: nat, n: nat, k: Key)
    requires n <= 9 && WellFormed(db) && WellFormed(Stage(db, Script(db, id), n))
    requires k in Stage(db, Script(db, id), n) && k.table in {Leads, Messages, Analyses}
    requires Gone(Stage(db, Script(db, id), n), k.table, ContactId, {id})
    ensures k in db && Within(db[k], Stage(db, Script(db, id), n)[k]) && !LinkIs(db[k], ContactId, id)
  {
    hide Script, Stage;
    var d := Stage(db, Script(db, id), n);
    StageShrinks(db, Script(db, id), n);
    assert RowOk(d, k.table, d[k]);
    assert ContactId in Required(k.table);
  }

  lemma EnrolmentFree(db: Db, id: nat, t: Table)
    requires WellFormed(db) && Clean(db, id) && WellFormed(Stage(db, Script(db, id), 6))
    requires t in {Leads, Messages} && Gone(Stage(db, Script(db, id), 6), t, ContactId, {id})
    ensures Gone(Stage(db, Script(db, id), 6), t, EnrolmentId, Ids(db, Enrolments, ContactId, id))
  {
    hide Script, Stage, WellFormed, Ids;
    var d := Stage(db, Script(db, id), 6);
    IdsAreTheirs(db, id);
    forall k | k in d && k.table == t && EnrolmentId in d[k].links
      ensures d[k].links[EnrolmentId] !in Ids(db, Enrolments, ContactId, id)
    {
      OthersOnly(db, id, 6, k);
      assert RowClean(db, id, k);
    }
  }

  lemma EnrolmentsStage(db: Db, id: nat)
    requires WellFormed(db) && Clean(db, id) && WellFormed(Stage(db, Script(db, id), 6))
    ensures WellFormed(Stage(db, Script(db, id), 7))
  {
    hide Stage, WellFormed, Ids, Gone, Clean;
    var stmts := Script(db, id);
    var ids := Ids(db, Enrolments, ContactId, id);
    MatchIds(db, stmts, 6, Enrolments, ContactId, id);
    GoneAt(db, stmts, 4, 6, Leads, ContactId, {id});
    GoneAt(db, stmts, 5, 6, Messages, ContactId, {id});
    EnrolmentFree(db, id, Leads);
    EnrolmentFree(db, id, Messages);
    GoneAt(db, stmts, 2, 6, Analyses, EnrolmentId, ids);
    GoneAt(db, stmts, 3, 6, Followups, EnrolmentId, ids);
    DeleteSafely(db, id, 6, ids);
  }

  lemma MessageFree(db: Db, id: nat, k: Key)
    requires WellFormed(db) && Clean(db, id) && WellFormed(Stage(db, Script(db, id), 5))
    requires k in Stage(db, Script(db, id), 5) && k.table == Analyses
    requires Gone(Stage(db, Script(db, id), 5), Analyses, ContactId, {id})
    ensures k in db && !ToContacts(db, id, db[k], MessageId)
    ensures Within(db[k], Stage(db, Script(db, id), 5)[k])
  {
    hide Stage, WellFormed, Ids, Gone;
    var stmts := Script(db, id);
    OthersOnly(db, id, 5, k);
    assert RowClean(db, id, k);
    StageIsRowWise(db, stmts, 5, k);
    RowSkips(stmts, 5, 9, k, db[k]);
    RowFate(db, id, k);
  }

  lemma MessagesStage(db: Db, id: nat)
    requires WellFormed(db) && Clean(db, id) && WellFormed(Stage(db, Script(db, id), 5))
    ensures WellFormed(Stage(db, Script(db, id), 6))
  {
    hide Stage, WellFormed, Ids, Clean;
    var stmts := Script(db, id);
    var d := Stage(db, stmts, 5);
    var ids := Ids(db, Messages, ContactId, id);
    MatchIds(db, stmts, 5, Messages, ContactId, id);
    GoneAt(db, stmts, 1, 5, Analyses, ContactId, {id});
    NoMessageLeft(db, id);
    DeleteSafely(db, id, 5, ids);
  }

  lemma NoMessageLeft(db: Db, id: nat)
    requires WellFormed(db) && Clean(db, id) && WellFormed(Stage(db, Script(db, id), 5))
    requires Gone(Stage(db, Script(db, id), 5), Analyses, ContactId, {id})
    ensures Gone(Stage(db, Script(db, id), 5), Analyses, MessageId, Ids(db, Messages, ContactId, id))
  {
    hide Stage, WellFormed, Clean, Script;
    var d := Stage(db, Script(db, id), 5);
    forall k | k in d && k.table == Analyses && MessageId in d[k].links
      ensures d[k].links[MessageId] !in Ids(db, Messages, ContactId, id)
    {
      MessageFree(db, id, k);
    }
  }

  lemma {:induction false} StageOk(db: Db, id: nat, n: nat)
    requires WellFormed(db) && Clean(db, id) && n <= 9
    ensures WellFormed(Stage(db, Script(db, id), n))
  {
    hide WellFormed, Clean, Script;
    if n > 0 {
      StageOk(db, id, n - 1);
      match n
      case 5 => LeadsStage(db, id);
      case 6 => MessagesStage(db, id);
      case 7 => EnrolmentsStage(db, id);
      case 9 => ContactStage(db, id);
      case _ => LeafStage(db, id, n - 1);
    }
  }

  /** A foreign row that hangs off the contact's rows is still there when its target is not. */
  lemma ForeignRowDangles(db: Db, id: nat, k: Key)
    requires k in db && k.table in {Leads, Messages, Analyses} && !RowClean(db, id, k)
    ensures !WellFormed(Without(db, id))
  {
    assert k in Without(db, id) && !RowOk(Without(db, id), k.table, Without(db, id)[k]);
  }

  /** The delete goes through exactly when no row of another contact hangs off this one's. */
  lemma DeleteIsAcceptedIff(db: Db, id: nat)
    requires WellFormed(db)
    ensures Accepted(db, Script(db, id)) <==> Clean(db, id)
  {
    hide WellFormed, Script, Stage, RowClean, Without;
    if Clean(db, id) {
      forall n | 0 <= n <= 9 ensures WellFormed(Stage(db, Script(db, id), n)) {
        StageOk(db, id, n);
      }
    } else {
      var k :| k in db && k.table in {Leads, Messages, Analyses} && !RowClean(db, id, k);
      DeleteIsExact(db, id);
      ForeignRowDangles(db, id, k);
      assert !WellFormed(Stage(db, Script(db, id), 9));
    }
  }

  // ---------------------------------------------------------------- ownership

  /** The row `row` refers to through `c` belongs to the same contact. */
  predicate SameContact(db: Db, row: Row, c: Column) {
    c in row.links ==>
      && Key(Target(c), row.links[c]) in db
      && ContactId in row.links
      && LinkIs(db[Key(Target(c), row.links[c])], ContactId, row.links[ContactId])
  }

  /** What hangs off an enrolment or a message belongs to that enrolment's or message's contact. */
  predicate ByOwner(db: Db) {
    forall k :: k in db && k.table in {Leads, Messages, Analyses} ==>
      SameContact(db, db[k], EnrolmentId) && SameContact(db, db[k], MessageId)
  }

  /** Under ownership every contact can be deleted, and its analyses are exactly the ones that go. */
  lemma OwnedIsClean(db: Db, id: nat)
    requires ByOwner(db)
    ensures Clean(db, id)
    ensures forall k :: k in db && k.table == Analyses ==> (Goes(db, id, k) <==> LinkIs(db[k], ContactId, id))
  {
    forall k | k in db && k.table in {Leads, Messages, Analyses}
      ensures RowClean(db, id, k)
      ensures k.table == Analyses ==> (Goes(db, id, k) <==> LinkIs(db[k], ContactId, id))
    {
      assert SameContact(db, db[k], EnrolmentId) && SameContact(db, db[k], MessageId);
    }
  }

  lemma SameContactKept(db: Db, db': Db, k: Key, c: Column)
    requires WellFormed(db') && Shrinks(db, db') && k in db'
    requires k.table in {Leads, Messages, Analyses} && c in {EnrolmentId, MessageId}
    requires SameContact(db, db[k], c)
    ensures SameContact(db', db'[k], c)
  {
    assert RowOk(db', k.table, db'[k]);
    if c in db'[k].links {
      var to := Key(Target(c), db'[k].links[c]);
      assert RowOk(db', to.table, db'[to]);
      assert ContactId in Required(to.table) && ContactId in Required(k.table);
    }
  }

  lemma OwnedKept(db: Db, db': Db)
    requires ByOwner(db) && WellFormed(db') && Shrinks(db, db')
    ensures ByOwner(db')
  {
    hide SameContact, WellFormed;
    forall k | k in db' && k.table in {Leads, Messages, Analyses}
      ensures SameContact(db', db'[k], EnrolmentId) && SameContact(db', db'[k], MessageId)
    {
      SameContactKept(db, db', k, EnrolmentId);
      SameContactKept(db, db', k, MessageId);
    }
  }

  /** Neither delete disturbs ownership, so contacts stay deletable after any run of deletes. */
  lemma DeletesKeepOwnership(db: Db, id: nat)
    requires WellFormed(db) && ByOwner(db)
    ensures WellFormed(Without(db, id)) && ByOwner(Without(db, id))
    ensures WellFormed(CampaignDelete.Without(db, id)) && ByOwner(CampaignDelete.Without(db, id))
  {
    hide WellFormed, ByOwner, Stage, Shrinks, Without, Script, CampaignDelete.Without, CampaignDelete.Script, Clean;
    OwnedIsClean(db, id);
    DeleteIsAcceptedIff(db, id);
    DeleteIsExact(db, id);
    StageShrinks(db, Script(db, id), 9);
    OwnedKept(db, Without(db, id));
    CampaignDelete.DeleteIsAccepted(db, id);
    CampaignDelete.DeleteIsExact(db, id);
    StageShrinks(db, CampaignDelete.Script(db, id), 10);
    OwnedKept(db, CampaignDelete.Without(db, id));
  }

  // ---------------------------------------------------------------- the operation

  datatype Outcome = NotFound | ForeignKeyViolation | Deleted

  method DeleteContact(store: Store, id: nat, found: bool) returns (outcome: Outcome)
    requires WellFormed(store.db)
    modifies store
    ensures WellFormed(store.db)
    ensures outcome == NotFound <==> !found
    ensures outcome == Deleted <==> found && Clean(old(store.db), id)
    ensures store.db == if outcome == Deleted then Without(old(store.db), id) else old(store.db)
  {
    hide WellFormed, Stage, Hits, Script, Without, Clean;
    if !found {
      return NotFound;
    }
    DeleteIsAcceptedIff(store.db, id);
    DeleteIsExact(store.db, id);
    var ok, _ := store.Transaction(Script(store.db, id));
    outcome := if ok then Deleted else ForeignKeyViolation;
  }
}
