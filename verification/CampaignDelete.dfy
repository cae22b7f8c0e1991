/** `deleteCampaign`: what goes, what stays and loses its links, and why no foreign key objects. */
module CampaignDelete {
  import opened Options
  import opened Relational

  function Script(db: Db, id: nat): (stmts: seq<Stmt>)
    ensures |stmts| == 10
  {
    var enrolments := Ids(db, Enrolments, CampaignId, id);
    var templates := Ids(db, Templates, CampaignId, id);
    [ Update(Leads, Either(LinkIn(CampaignId, {id}), LinkIn(EnrolmentId, enrolments)), {CampaignId, EnrolmentId}),
      Update(Messages, LinkIn(EnrolmentId, enrolments), {EnrolmentId}),
      Update(Analyses, LinkIn(EnrolmentId, enrolments), {EnrolmentId}),
      Update(Jobs, LinkIn(CampaignId, {id}), {CampaignId}),
      Update(Messages, LinkIn(TemplateId, templates), {TemplateId}),
      Delete(Followups, LinkIn(EnrolmentId, enrolments)),
      Update(Followups, LinkIn(TemplateId, templates), {TemplateId}),
      Delete(Enrolments, LinkIn(CampaignId, {id})),
      Delete(Templates, LinkIn(CampaignId, {id})),
      Delete(Campaigns, IdIn({id})) ]
  }

  // ---------------------------------------------------------------- what the operation is for

  /** The campaign's own scaffolding: itself, its enrolments, its templates, their follow-ups. */
  predicate Owned(db: Db, id: nat, k: Key)
    requires k in db
  {
    match k.table
    case Campaigns => k.id == id
    case Enrolments => CampaignId in db[k].links && db[k].links[CampaignId] == id
    case Templates => CampaignId in db[k].links && db[k].links[CampaignId] == id
    case Followups => EnrolmentId in db[k].links && OwnedKey(db, id, Key(Enrolments, db[k].links[EnrolmentId]))
    case _ => false
  }

  predicate OwnedKey(db: Db, id: nat, k: Key)
    requires k.table == Enrolments || k.table == Templates
  {
    k in db && CampaignId in db[k].links && db[k].links[CampaignId] == id
  }

  /** Does this row refer through `c` to something that goes? */
  predicate Dangling(db: Db, id: nat, row: Row, c: Column) {
    && c in row.links
    && match c
       case CampaignId => row.links[c] == id
       case EnrolmentId => OwnedKey(db, id, Key(Enrolments, row.links[c]))
       case TemplateId => OwnedKey(db, id, Key(Templates, row.links[c]))
       case _ => false
  }

  /** A lead linked either way loses both links; every other row loses exactly its dangling ones. */
  function Unlinked(db: Db, id: nat, t: Table, row: Row): Row {
    if t != Leads then row.(links := map c | c in row.links && !Dangling(db, id, row, c) :: row.links[c])
    else if Dangling(db, id, row, CampaignId) || Dangling(db, id, row, EnrolmentId) then
      row.(links := row.links - {CampaignId, EnrolmentId})
    else row
  }

  /** The database without the campaign. */
  function Without(db: Db, id: nat): Db {
    map k | k in db && !Owned(db, id, k) :: Unlinked(db, id, k.table, db[k])
  }

  datatype Report = Report(
    enrolments: nat, templates: nat, followups: nat, leads: nat, messages: nat, analyses: nat, jobs: nat)

  function Removed(db: Db, db': Db, t: Table): set<Key> {
    set k | k in db && k.table == t && k !in db'
  }

  /** The rows of `t` that lost their link through `c`. */
  function Cut(db: Db, db': Db, t: Table, c: Column): set<Key> {
    set k | k in db && k.table == t && k in db' && c in db[k].links && c !in db'[k].links
  }

  function Changed(db: Db, db': Db, t: Table): set<Key> {
    set k | k in db && k.table == t && k in db' && db'[k] != db[k]
  }

  /** Every number in the report is the number of rows that went, or lost that link. */
  ghost predicate Truthful(r: Report, db: Db, db': Db) {
    && r.enrolments == |Removed(db, db', Enrolments)|
    && r.templates == |Removed(db, db', Templates)|
    && r.followups == |Removed(db, db', Followups)|
    && r.leads == |Changed(db, db', Leads)|
    && r.messages == |Cut(db, db', Messages, EnrolmentId)|
    && r.analyses == |Changed(db, db', Analyses)|
    && r.jobs == |Changed(db, db', Jobs)|
  }

  // ---------------------------------------------------------------- no foreign key objects

  lemma UpdateStage(db: Db, id: nat, n: nat)
    requires n in {0, 1, 2, 3, 4, 6} && WellFormed(Stage(db, Script(db, id), n))
    ensures WellFormed(Stage(db, Script(db, id), n + 1))
  {
    hide Stage, WellFormed, Ids;
    StageNext(db, Script(db, id), n);
    UpdateKeeps(Stage(db, Script(db, id), n), Script(db, id)[n]);
  }

  lemma DeleteFollowupsStage(db: Db, id: nat)
    requires WellFormed(Stage(db, Script(db, id), 5))
    ensures WellFormed(Stage(db, Script(db, id), 6))
  {
    hide Stage, WellFormed, Ids, Has;
    var d := Stage(db, Script(db, id), 5);
    StageNext(db, Script(db, id), 5);
    DeleteKeeps(d, Script(db, id)[5], set k | k in d :: k.id);
  }

  lemma DeleteEnrolmentsStage(db: Db, id: nat)
    requires WellFormed(Stage(db, Script(db, id), 7))
    ensures WellFormed(Stage(db, Script(db, id), 8))
  {
    hide Stage, WellFormed, Ids, Gone;
    var stmts := Script(db, id);
    var ids := Ids(db, Enrolments, CampaignId, id);
    StageNext(db, stmts, 7);
    MatchIds(db, stmts, 7, Enrolments, CampaignId, id);
    assert Covers(LinkIn(EnrolmentId, ids), EnrolmentId, ids);
    GoneAt(db, stmts, 0, 7, Leads, EnrolmentId, ids);
    GoneAt(db, stmts, 1, 7, Messages, EnrolmentId, ids);
    GoneAt(db, stmts, 2, 7, Analyses, EnrolmentId, ids);
    GoneAt(db, stmts, 5, 7, Followups, EnrolmentId, ids);
    DeleteKeeps(Stage(db, stmts, 7), stmts[7], ids);
  }

  lemma DeleteTemplatesStage(db: Db, id: nat)
    requires WellFormed(Stage(db, Script(db, id), 8))
    ensures WellFormed(Stage(db, Script(db, id), 9))
  {
    hide Stage, WellFormed, Ids, Gone;
    var stmts := Script(db, id);
    var ids := Ids(db, Templates, CampaignId, id);
    StageNext(db, stmts, 8);
    MatchIds(db, stmts, 8, Templates, CampaignId, id);
    GoneAt(db, stmts, 4, 8, Messages, TemplateId, ids);
    GoneAt(db, stmts, 6, 8, Followups, TemplateId, ids);
    DeleteKeeps(Stage(db, stmts, 8), stmts[8], ids);
  }

  lemma DeleteCampaignStage(db: Db, id: nat)
    requires WellFormed(Stage(db, Script(db, id), 9))
    ensures WellFormed(Stage(db, Script(db, id), 10))
  {
    hide Stage, WellFormed, Ids, Gone;
    var stmts := Script(db, id);
    StageNext(db, stmts, 9);
    assert Covers(LinkIn(CampaignId, {id}), CampaignId, {id});
    GoneAt(db, stmts, 0, 9, Leads, CampaignId, {id});
    GoneAt(db, stmts, 3, 9, Jobs, CampaignId, {id});
    GoneAt(db, stmts, 7, 9, Enrolments, CampaignId, {id});
    GoneAt(db, stmts, 8, 9, Templates, CampaignId, {id});
    DeleteKeeps(Stage(db, stmts, 9), stmts[9], {id});
  }

  lemma {:induction false} StageOk(db: Db, id: nat, n: nat)
    requires WellFormed(db) && n <= 10
    ensures WellFormed(Stage(db, Script(db, id), n))
  {
    hide WellFormed, Ids, Script;
    if n > 0 {
      StageOk(db, id, n - 1);
      match n
      case 6 => DeleteFollowupsStage(db, id);
      case 8 => DeleteEnrolmentsStage(db, id);
      case 9 => DeleteTemplatesStage(db, id);
      case 10 => DeleteCampaignStage(db, id);
      case _ => UpdateStage(db, id, n - 1);
    }
  }

  /** At every statement all foreign keys hold, from any well-formed database. */
  lemma DeleteIsAccepted(db: Db, id: nat)
    requires WellFormed(db)
    ensures Accepted(db, Script(db, id))
  {
    hide WellFormed, Ids, Script;
    forall n | 0 <= n <= 10 ensures WellFormed(Stage(db, Script(db, id), n)) {
      StageOk(db, id, n);
    }
  }

  // ---------------------------------------------------------------- the result, row by row

  /** What the whole transaction makes of one row. */
  function Fate(db: Db, id: nat, k: Key): Option<Row>
    requires k in db
  {
    if Owned(db, id, k) then None else Some(Unlinked(db, id, k.table, db[k]))
  }

  lemma OnceTouched(db: Db, id: nat, i: nat, k: Key, row: Row)
    requires i in {0, 2, 3, 7, 8, 9} && k.table == Script(db, id)[i].table
    ensures RowAt(Script(db, id), 10, k, row) == Touch(Script(db, id)[i], k, row)
  {
    hide Touch, RowAt, Ids;
    OneTouch(Script(db, id), i, k, row);
  }

  lemma TwiceTouched(db: Db, id: nat, i: nat, j: nat, k: Key, row: Row)
    requires (i == 1 && j == 4 && k.table == Messages) || (i == 5 && j == 6 && k.table == Followups)
    ensures var r := Touch(Script(db, id)[i], k, row);
            RowAt(Script(db, id), 10, k, row) == if r.None? then None else Touch(Script(db, id)[j], k, r.value)
  {
    hide Touch, RowAt, Ids;
    TwoTouches(Script(db, id), i, j, k, row);
  }

  lemma NeverTouched(db: Db, id: nat, k: Key, row: Row)
    requires k.table in {Contacts, Deals, Results}
    ensures RowAt(Script(db, id), 10, k, row) == Some(row)
  {
    hide Touch, RowAt, Ids;
    RowSkips(Script(db, id), 0, 10, k, row);
    NoRowYet(Script(db, id), k, row);
  }

  lemma IdsAreOwned(db: Db, id: nat)
    ensures forall x :: x in Ids(db, Enrolments, CampaignId, id) <==> OwnedKey(db, id, Key(Enrolments, x))
    ensures forall x :: x in Ids(db, Templates, CampaignId, id) <==> OwnedKey(db, id, Key(Templates, x))
  {
    forall x ensures x in Ids(db, Enrolments, CampaignId, id) <==> OwnedKey(db, id, Key(Enrolments, x)) {
      if OwnedKey(db, id, Key(Enrolments, x)) {
        assert Key(Enrolments, x).id == x;
      }
    }
    forall x ensures x in Ids(db, Templates, CampaignId, id) <==> OwnedKey(db, id, Key(Templates, x)) {
      if OwnedKey(db, id, Key(Templates, x)) {
        assert Key(Templates, x).id == x;
      }
    }
  }

  lemma NothingDangles(db: Db, id: nat, t: Table, row: Row)
    requires t != Leads && forall c :: c in row.links ==> !Dangling(db, id, row, c)
    ensures Unlinked(db, id, t, row) == row
  {
    hide Dangling;
    assert Unlinked(db, id, t, row).links == row.links;
  }

  lemma LeadFate(db: Db, id: nat, k: Key)
    requires WellFormed(db) && k in db && k.table == Leads
    ensures RowAt(Script(db, id), 10, k, db[k]) == Fate(db, id, k)
  {
    hide WellFormed, Ids, RowAt, OwnedKey;
    var ids := Ids(db, Enrolments, CampaignId, id);
    IdsAreOwned(db, id);
    OnceTouched(db, id, 0, k, db[k]);
    assert Holds(LinkIn(CampaignId, {id}), k.id, db[k]) == Dangling(db, id, db[k], CampaignId);
    assert Holds(LinkIn(EnrolmentId, ids), k.id, db[k]) == Dangling(db, id, db[k], EnrolmentId);
  }

  lemma JobFate(db: Db, id: nat, k: Key)
    requires WellFormed(db) && k in db && k.table == Jobs
    ensures RowAt(Script(db, id), 10, k, db[k]) == Fate(db, id, k)
  {
    hide Ids, RowAt, OwnedKey;
    assert RowOk(db, k.table, db[k]);
    OnceTouched(db, id, 3, k, db[k]);
    assert Touch(Script(db, id)[3], k, db[k]).value.links == Unlinked(db, id, Jobs, db[k]).links;
  }

  /** Clearing column `c` where it refers to an owned row removes exactly the dangling link. */
  function Cleared(db: Db, id: nat, row: Row, c: Column): Row {
    if Dangling(db, id, row, c) then row.(links := row.links - {c}) else row
  }

  lemma ClearsDangling(db: Db, id: nat, s: Stmt, k: Key, row: Row)
    requires s.Update? && k.table == s.table
    requires s == Update(s.table, LinkIn(EnrolmentId, Ids(db, Enrolments, CampaignId, id)), {EnrolmentId})
          || s == Update(s.table, LinkIn(TemplateId, Ids(db, Templates, CampaignId, id)), {TemplateId})
    ensures Touch(s, k, row) == Some(Cleared(db, id, row, s.cond.column))
  {
    hide Ids, OwnedKey;
    IdsAreOwned(db, id);
  }

  lemma OneCleared(db: Db, id: nat, t: Table, row: Row, c: Column)
    requires t != Leads && forall x :: x in row.links && x != c ==> !Dangling(db, id, row, x)
    ensures Unlinked(db, id, t, row) == Cleared(db, id, row, c)
  {
    hide Dangling;
    assert Unlinked(db, id, t, row).links == Cleared(db, id, row, c).links;
  }

  lemma TwoCleared(db: Db, id: nat, t: Table, row: Row)
    requires t != Leads
    requires forall x :: x in row.links && x != EnrolmentId && x != TemplateId ==> !Dangling(db, id, row, x)
    ensures Unlinked(db, id, t, row) == Cleared(db, id, Cleared(db, id, row, EnrolmentId), TemplateId)
  {
    hide OwnedKey;
    var row' := Cleared(db, id, Cleared(db, id, row, EnrolmentId), TemplateId);
    assert Unlinked(db, id, t, row).links == row'.links;
  }

  lemma AnalysisFate(db: Db, id: nat, k: Key)
    requires WellFormed(db) && k in db && k.table == Analyses
    ensures RowAt(Script(db, id), 10, k, db[k]) == Fate(db, id, k)
  {
    hide Ids, RowAt, Touch, Cleared, Unlinked, OwnedKey;
    var stmts := Script(db, id);
    assert RowOk(db, k.table, db[k]);
    OnceTouched(db, id, 2, k, db[k]);
    ClearsDangling(db, id, stmts[2], k, db[k]);
    OneCleared(db, id, Analyses, db[k], EnrolmentId);
  }

  lemma MessageFate(db: Db, id: nat, k: Key)
    requires WellFormed(db) && k in db && k.table == Messages
    ensures RowAt(Script(db, id), 10, k, db[k]) == Fate(db, id, k)
  {
    hide Ids, RowAt, Touch, Cleared, Unlinked, OwnedKey;
    var stmts := Script(db, id);
    assert RowOk(db, k.table, db[k]);
    TwiceTouched(db, id, 1, 4, k, db[k]);
    ClearsDangling(db, id, stmts[1], k, db[k]);
    ClearsDangling(db, id, stmts[4], k, Cleared(db, id, db[k], EnrolmentId));
    TwoCleared(db, id, Messages, db[k]);
  }

  lemma FollowupFate(db: Db, id: nat, k: Key)
    requires WellFormed(db) && k in db && k.table == Followups
    ensures RowAt(Script(db, id), 10, k, db[k]) == Fate(db, id, k)
  {
    hide Ids, RowAt, Cleared, Unlinked, OwnedKey;
    var stmts := Script(db, id);
    IdsAreOwned(db, id);
    assert RowOk(db, k.table, db[k]);
    TwiceTouched(db, id, 5, 6, k, db[k]);
    ClearsDangling(db, id, stmts[6], k, db[k]);
    if !Owned(db, id, k) {
      OneCleared(db, id, Followups, db[k], TemplateId);
    }
  }

  lemma ScaffoldFate(db: Db, id: nat, k: Key)
    requires WellFormed(db) && k in db && k.table in {Enrolments, Templates, Campaigns}
    ensures RowAt(Script(db, id), 10, k, db[k]) == Fate(db, id, k)
  {
    hide Ids, RowAt, OwnedKey, Unlinked;
    assert RowOk(db, k.table, db[k]);
    OnceTouched(db, id, if k.table == Enrolments then 7 else if k.table == Templates then 8 else 9, k, db[k]);
    if !Owned(db, id, k) {
      NothingDangles(db, id, k.table, db[k]);
    }
  }

  lemma OtherFate(db: Db, id: nat, k: Key)
    requires WellFormed(db) && k in db && k.table in {Contacts, Deals, Results}
    ensures RowAt(Script(db, id), 10, k, db[k]) == Fate(db, id, k)
  {
    hide Ids, OwnedKey, Script, RowAt, Unlinked;
    assert RowOk(db, k.table, db[k]);
    NeverTouched(db, id, k, db[k]);
    NothingDangles(db, id, k.table, db[k]);
  }

  lemma RowFate(db: Db, id: nat, k: Key)
    requires WellFormed(db) && k in db
    ensures RowAt(Script(db, id), 10, k, db[k]) == Fate(db, id, k)
  {
    hide WellFormed, Script, RowAt, Fate;
    match k.table
    case Leads => LeadFate(db, id, k);
    case Jobs => JobFate(db, id, k);
    case Analyses => AnalysisFate(db, id, k);
    case Messages => MessageFate(db, id, k);
    case Followups => FollowupFate(db, id, k);
    case Enrolments => ScaffoldFate(db, id, k);
    case Templates => ScaffoldFate(db, id, k);
    case Campaigns => ScaffoldFate(db, id, k);
    case _ => OtherFate(db, id, k);
  }

  /** The ten statements together do exactly what the operation is for. */
  lemma DeleteIsExact(db: Db, id: nat)
    requires WellFormed(db)
    ensures Stage(db, Script(db, id), 10) == Without(db, id)
  {
    hide WellFormed, Script, RowAt, Owned, Unlinked, Stage;
    var d := Stage(db, Script(db, id), 10);
    forall k ensures k in d <==> k in Without(db, id) {
      StageIsRowWise(db, Script(db, id), 10, k);
      if k in db {
        RowFate(db, id, k);
      }
    }
    forall k | k in d ensures d[k] == Without(db, id)[k] {
      StageIsRowWise(db, Script(db, id), 10, k);
      RowFate(db, id, k);
    }
  }

  /**
   * Leads, deals, messages, analyses, contacts, scrape jobs and results all survive with their payload;
   * a row that referred to nothing of the campaign is untouched; no surviving link is dangling.
   */
  lemma ValueSurvives(db: Db, id: nat, k: Key)
    requires WellFormed(db) && k in db
    ensures k.table in {Leads, Deals, Messages, Analyses, Contacts, Jobs, Results} ==> k in Without(db, id)
    ensures k in Without(db, id) ==> Within(db[k], Without(db, id)[k])
    ensures k in Without(db, id) && (forall c :: c in db[k].links ==> !Dangling(db, id, db[k], c)) ==>
              Without(db, id)[k] == db[k]
    ensures k in Without(db, id) ==> forall c :: c in Without(db, id)[k].links ==> !Dangling(db, id, db[k], c)
  {
    hide OwnedKey;
    assert RowOk(db, k.table, db[k]);
    if k in Without(db, id) && k.table != Leads && forall c :: c in db[k].links ==> !Dangling(db, id, db[k], c) {
      NothingDangles(db, id, k.table, db[k]);
    }
  }

  // ---------------------------------------------------------------- the report

  lemma ScaffoldRemoved(db: Db, id: nat)
    requires WellFormed(db)
    ensures Hits(Stage(db, Script(db, id), 7), Script(db, id)[7]) == Removed(db, Without(db, id), Enrolments)
    ensures Hits(Stage(db, Script(db, id), 8), Script(db, id)[8]) == Removed(db, Without(db, id), Templates)
  {
    hide WellFormed, Stage, Ids, Unlinked;
    HitsAtFirst(db, Script(db, id), 7);
    HitsAtFirst(db, Script(db, id), 8);
  }

  lemma FollowupsRemoved(db: Db, id: nat)
    requires WellFormed(db)
    ensures Hits(Stage(db, Script(db, id), 5), Script(db, id)[5]) == Removed(db, Without(db, id), Followups)
  {
    hide WellFormed, Stage, Ids, Unlinked, OwnedKey;
    IdsAreOwned(db, id);
    HitsAtFirst(db, Script(db, id), 5);
  }

  lemma LeadsUnlinked(db: Db, id: nat)
    requires WellFormed(db)
    ensures Hits(Stage(db, Script(db, id), 0), Script(db, id)[0]) == Changed(db, Without(db, id), Leads)
  {
    hide WellFormed, Stage, Ids, OwnedKey;
    var ids := Ids(db, Enrolments, CampaignId, id);
    IdsAreOwned(db, id);
    HitsAtFirst(db, Script(db, id), 0);
    forall k | k in db && k.table == Leads
      ensures Hit(Script(db, id)[0], k, db[k]) <==> Without(db, id)[k] != db[k]
    {
      assert Holds(LinkIn(CampaignId, {id}), k.id, db[k]) == Dangling(db, id, db[k], CampaignId);
      assert Holds(LinkIn(EnrolmentId, ids), k.id, db[k]) == Dangling(db, id, db[k], EnrolmentId);
    }
  }

  lemma MessagesUnlinked(db: Db, id: nat)
    requires WellFormed(db)
    ensures Hits(Stage(db, Script(db, id), 1), Script(db, id)[1])
         == Cut(db, Without(db, id), Messages, EnrolmentId)
  {
    hide WellFormed, Stage, Ids, OwnedKey;
    IdsAreOwned(db, id);
    HitsAtFirst(db, Script(db, id), 1);
  }

  lemma AnalysesUnlinked(db: Db, id: nat)
    requires WellFormed(db)
    ensures Hits(Stage(db, Script(db, id), 2), Script(db, id)[2]) == Changed(db, Without(db, id), Analyses)
  {
    hide Stage, Ids, OwnedKey, Unlinked;
    IdsAreOwned(db, id);
    HitsAtFirst(db, Script(db, id), 2);
    forall k | k in db && k.table == Analyses
      ensures Hit(Script(db, id)[2], k, db[k]) <==> Without(db, id)[k] != db[k]
    {
      assert RowOk(db, k.table, db[k]);
      OneCleared(db, id, Analyses, db[k], EnrolmentId);
    }
  }

  lemma JobsUnlinked(db: Db, id: nat)
    requires WellFormed(db)
    ensures Hits(Stage(db, Script(db, id), 3), Script(db, id)[3]) == Changed(db, Without(db, id), Jobs)
  {
    hide Stage, Ids, OwnedKey, Unlinked;
    HitsAtFirst(db, Script(db, id), 3);
    forall k | k in db && k.table == Jobs
      ensures Hit(Script(db, id)[3], k, db[k]) <==> Without(db, id)[k] != db[k]
    {
      assert RowOk(db, k.table, db[k]);
      OneCleared(db, id, Jobs, db[k], CampaignId);
    }
  }

  // ---------------------------------------------------------------- the operation

  /** What `findById` found: nothing, or a campaign with or without status ACTIVE. */
  datatype Seen = Missing | Found(active: bool)

  datatype Outcome = NotFound | StillActive | Deleted(report: Report)

  method DeleteCampaign(store: Store, id: nat, seen: Seen) returns (outcome: Outcome)
    requires WellFormed(store.db)
    modifies store
    ensures WellFormed(store.db)
    ensures outcome.NotFound? <==> seen.Missing?
    ensures outcome.StillActive? <==> seen.Found? && seen.active
    ensures !outcome.Deleted? ==> store.db == old(store.db)
    ensures outcome.Deleted? ==> store.db == Without(old(store.db), id)
    ensures outcome.Deleted? ==> Truthful(outcome.report, old(store.db), store.db)
  {
    hide WellFormed, Stage, Hits, Script, Removed, Changed, Cut, Without, Ids;
    if seen.Missing? {
      return NotFound;
    }
    if seen.active {
      return StillActive;
    }
    ghost var db := store.db;
    DeleteIsAccepted(db, id);
    DeleteIsExact(db, id);
    ScaffoldRemoved(db, id);
    FollowupsRemoved(db, id);
    LeadsUnlinked(db, id);
    MessagesUnlinked(db, id);
    AnalysesUnlinked(db, id);
    JobsUnlinked(db, id);
    var ok, counts := store.Transaction(Script(store.db, id));
    outcome := Deleted(Report(counts[7], counts[8], counts[5], counts[0], counts[1], counts[2], counts[3]));
  }
}
