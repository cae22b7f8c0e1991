/** `ingestPlace`: one scraped place becomes a company and a contact, or a line in the result log. */
module CollectionIngest {
  import opened Options

  /** A place as the provider returned it; `phone` is the number once normalised, if there is one. */
  datatype Place = Place(id: nat, phone: Option<nat>)

  /** Rows are identified by their position. Companies entered by hand have no place id. */
  datatype Company = Company(placeId: Option<nat>)
  datatype Contact = Contact(number: nat, company: Option<nat>)
  datatype Outcome = Imported | Duplicate | Invalid | Thrown
  datatype Log = Log(job: nat, place: nat, outcome: Outcome, company: Option<nat>, contact: Option<nat>)

  datatype Db = Db(companies: seq<Company>, contacts: seq<Contact>, log: seq<Log>, enrolments: set<(nat, nat)>)

  /** Which database call fails while a place is ingested. */
  datatype Fault = NoFault | AtLookup | AtCompany | AtContact | AtLog | AtEnrolment

  datatype Job = Job(id: nat, campaign: Option<nat>)

  function FindCompany(companies: seq<Company>, placeId: nat): (i: Option<nat>)
    ensures i.Some? ==> i.value < |companies| && companies[i.value].placeId == Some(placeId)
    ensures i.None? ==> forall j :: 0 <= j < |companies| ==> companies[j].placeId != Some(placeId)
  {
    if companies == [] then None
    else if companies[|companies| - 1].placeId == Some(placeId) then Some(|companies| - 1)
    else FindCompany(companies[..|companies| - 1], placeId)
  }

  function FindContact(contacts: seq<Contact>, number: nat): (i: Option<nat>)
    ensures i.Some? ==> i.value < |contacts| && contacts[i.value].number == number
    ensures i.None? ==> forall j :: 0 <= j < |contacts| ==> contacts[j].number != number
  {
    if contacts == [] then None
    else if contacts[|contacts| - 1].number == number then Some(|contacts| - 1)
    else FindContact(contacts[..|contacts| - 1], number)
  }

  /** A result row that cannot be stored is skipped, never an error. */
  function Logged(db: Db, entry: Log, fault: Fault): Db {
    if fault.AtLog? then db else db.(log := db.log + [entry])
  }

  function Enrolled(db: Db, job: Job, contact: nat, fault: Fault): Db {
    if job.campaign.Some? && !fault.AtEnrolment?
    then db.(enrolments := db.enrolments + {(job.campaign.value, contact)}) else db
  }

  function Ingest(db: Db, job: Job, place: Place, fault: Fault): (r: (Db, Outcome)) {
    if place.phone.None? then (Logged(db, Log(job.id, place.id, Invalid, None, None), fault), Invalid)
    else if fault.AtLookup? then (db, Thrown)
    else
      var company := FindCompany(db.companies, place.id);
      var contact := FindContact(db.contacts, place.phone.value);
      if company.Some? || contact.Some? then
        (Logged(db, Log(job.id, place.id, Duplicate, company, contact), fault), Duplicate)
      else if fault.AtCompany? then (db, Thrown)
      else
        var c := |db.companies|;
        var db1 := db.(companies := db.companies + [Company(Some(place.id))]);
        if fault.AtContact? then (db1, Thrown)
        else
          var k := |db.contacts|;
          var db2 := db1.(contacts := db.contacts + [Contact(place.phone.value, Some(c))]);
          (Enrolled(Logged(db2, Log(job.id, place.id, Imported, Some(c), Some(k)), fault), job, k, fault), Imported)
  }

  // ---------------------------------------------------------------- no listing, no number twice

  /** Place ids and phone numbers are unique. */
  ghost predicate Unique(db: Db) {
    && (forall i, j :: 0 <= i < j < |db.companies| && db.companies[i].placeId.Some?
                       ==> db.companies[i].placeId != db.companies[j].placeId)
    && (forall i, j :: 0 <= i < j < |db.contacts| ==> db.contacts[i].number != db.contacts[j].number)
  }

  /** The place was met before: its listing or its number is on file. */
  predicate Known(db: Db, place: Place) {
    place.phone.None? || FindCompany(db.companies, place.id).Some? || FindContact(db.contacts, place.phone.value).Some?
  }

  /** Rows are only ever added. */
  predicate Grows(db: Db, db': Db) {
    db.companies <= db'.companies && db.contacts <= db'.contacts && db.log <= db'.log
    && db.enrolments <= db'.enrolments
  }

  predicate SameRows(db: Db, db': Db) {
    db.companies == db'.companies && db.contacts == db'.contacts && db.enrolments == db'.enrolments
  }

  lemma IngestFacts(db: Db, job: Job, place: Place, fault: Fault)
    ensures var (db', outcome) := Ingest(db, job, place, fault);
            && (Unique(db) ==> Unique(db'))
            && Grows(db, db')
            && (outcome == Imported <==> |db'.contacts| == |db.contacts| + 1)
            && (outcome != Imported ==> db'.contacts == db.contacts && db'.enrolments == db.enrolments)
            && (outcome != Thrown ==> Known(db', place))
            && (Known(db, place) ==> SameRows(db, db') && outcome != Imported)
  {
    var (db', outcome) := Ingest(db, job, place, fault);
    if outcome == Imported {
      assert db'.contacts[|db.contacts|].number == place.phone.value;
    }
  }

  /** A new place becomes a company, a contact of it with the place's number, a log line and an enrolment; */
  lemma NewPlaceStored(db: Db, job: Job, place: Place)
    requires !Known(db, place)
    ensures var (db', outcome) := Ingest(db, job, place, NoFault); var c, k := |db.companies|, |db.contacts|;
            && outcome == Imported
            && db'.companies == db.companies + [Company(Some(place.id))]
            && db'.contacts == db.contacts + [Contact(place.phone.value, Some(c))]
            && db'.log == db.log + [Log(job.id, place.id, Imported, Some(c), Some(k))]
            && (forall e :: e in db'.enrolments <==> e in db.enrolments || (job.campaign == Some(e.0) && e.1 == k))
  {
  }

  /** a known one becomes a log line that names the rows it was recognised by. */
  lemma KnownPlaceLogged(db: Db, job: Job, place: Place)
    requires Known(db, place)
    ensures var (db', outcome) := Ingest(db, job, place, NoFault);
            && SameRows(db, db') && |db'.log| == |db.log| + 1 && db'.log[..|db.log|] == db.log
            && var line := db'.log[|db.log|];
               && line.job == job.id && line.place == place.id && line.outcome == outcome
               && outcome == (if place.phone.None? then Invalid else Duplicate)
               && (outcome == Duplicate ==> line.company.Some? || line.contact.Some?)
               && (line.company.Some? ==> line.company.value < |db.companies|
                                          && db.companies[line.company.value].placeId == Some(place.id))
               && (line.contact.Some? ==> line.contact.value < |db.contacts|
                                          && Some(db.contacts[line.contact.value].number) == place.phone)
  {
  }

  lemma KnownGrows(db: Db, db': Db, place: Place)
    requires Known(db, place) && Grows(db, db')
    ensures Known(db', place)
  {
    if place.phone.Some? {
      var c := FindCompany(db.companies, place.id);
      if c.Some? {
        assert db'.companies[c.value].placeId == Some(place.id);
      } else {
        var k := FindContact(db.contacts, place.phone.value);
        assert db'.contacts[k.value].number == place.phone.value;
      }
    }
  }

  /** What a place adds depends on the companies and contacts on file, not on the log. */
  lemma IngestSame(db1: Db, db2: Db, job: Job, place: Place, fault: Fault)
    requires SameRows(db1, db2)
    ensures SameRows(Ingest(db1, job, place, fault).0, Ingest(db2, job, place, fault).0)
    ensures Ingest(db1, job, place, fault).1 == Ingest(db2, job, place, fault).1
  {
  }

  // ---------------------------------------------------------------- many places

  /** The places one after another, stopping at the first exception; how many were completed. */
  function IngestAll(db: Db, job: Job, places: seq<Place>, faults: nat -> Fault, at: nat): (r: (Db, nat))
    ensures r.1 <= |places|
    decreases |places|
  {
    if places == [] then (db, 0)
    else
      var (db', outcome) := Ingest(db, job, places[0], faults(at));
      if outcome == Thrown then (db', 0)
      else
        var (end, n) := IngestAll(db', job, places[1..], faults, at + 1);
        (end, n + 1)
  }

  lemma IngestAllNone(db: Db, job: Job, faults: nat -> Fault, at: nat)
    ensures IngestAll(db, job, [], faults, at) == (db, 0)
  {
  }

  lemma IngestAllCons(db: Db, job: Job, place: Place, rest: seq<Place>, faults: nat -> Fault, at: nat)
    ensures var (db', outcome) := Ingest(db, job, place, faults(at));
            var (end, n) := IngestAll(db', job, rest, faults, at + 1);
            IngestAll(db, job, [place] + rest, faults, at) == if outcome == Thrown then (db', 0) else (end, n + 1)
  {
    assert ([place] + rest)[1..] == rest;
  }

  /** Going on after all of `a`, or stopping where `a` stops. */
  lemma {:induction false} IngestAllConcat(db: Db, job: Job, a: seq<Place>, b: seq<Place>, faults: nat -> Fault,
                                           at: nat)
    ensures var (mid, n) := IngestAll(db, job, a, faults, at);
            IngestAll(db, job, a + b, faults, at) ==
            if n < |a| then (mid, n)
            else (IngestAll(mid, job, b, faults, at + n).0, n + IngestAll(mid, job, b, faults, at + n).1)
    decreases |a|
  {
    hide IngestAll, Ingest;
    if a == [] {
      assert a + b == b;
      IngestAllNone(db, job, faults, at);
    } else {
      var (db', outcome) := Ingest(db, job, a[0], faults(at));
      assert a == [a[0]] + a[1..] && a + b == [a[0]] + (a[1..] + b);
      IngestAllCons(db, job, a[0], a[1..], faults, at);
      IngestAllCons(db, job, a[0], a[1..] + b, faults, at);
      IngestAllConcat(db', job, a[1..], b, faults, at + 1);
    }
  }

  lemma IngestAllSnoc(db: Db, job: Job, ps: seq<Place>, place: Place, faults: nat -> Fault, at: nat)
    ensures var (mid, n) := IngestAll(db, job, ps, faults, at);
            n == |ps| ==>
              var (db', outcome) := Ingest(mid, job, place, faults(at + n));
              IngestAll(db, job, ps + [place], faults, at) == (db', if outcome == Thrown then n else n + 1)
  {
    hide Ingest;
    IngestAllConcat(db, job, ps, [place], faults, at);
    var (mid, n) := IngestAll(db, job, ps, faults, at);
    IngestAllCons(mid, job, place, [], faults, at + n);
    assert [place] + [] == [place];
  }

  const NO_FAULTS: nat -> Fault := n => NoFault

  function Clean(db: Db, job: Job, places: seq<Place>): Db {
    IngestAll(db, job, places, NO_FAULTS, 0).0
  }

  lemma {:induction false} CleanShift(db: Db, job: Job, places: seq<Place>, at: nat)
    ensures IngestAll(db, job, places, NO_FAULTS, at) == (Clean(db, job, places), |places|)
    decreases |places|
  {
    if places != [] {
      var db' := Ingest(db, job, places[0], NoFault).0;
      CleanShift(db', job, places[1..], at + 1);
      CleanShift(db', job, places[1..], 1);
    }
  }

  lemma CleanCons(db: Db, job: Job, places: seq<Place>)
    requires places != []
    ensures Clean(db, job, places) == Clean(Ingest(db, job, places[0], NoFault).0, job, places[1..])
  {
    CleanShift(Ingest(db, job, places[0], NoFault).0, job, places[1..], 1);
  }

  lemma {:induction false} CleanConcat(db: Db, job: Job, a: seq<Place>, b: seq<Place>)
    ensures Clean(db, job, a + b) == Clean(Clean(db, job, a), job, b)
    decreases |a|
  {
    hide Clean, Ingest;
    if a == [] {
      assert a + b == b;
      CleanNone(db, job);
    } else {
      CleanCons(db, job, a + b);
      CleanCons(db, job, a);
      assert (a + b)[1..] == a[1..] + b;
      CleanConcat(Ingest(db, job, a[0], NoFault).0, job, a[1..], b);
    }
  }

  lemma CleanNone(db: Db, job: Job)
    ensures Clean(db, job, []) == db
  {
  }

  lemma {:induction false} CleanSame(db1: Db, db2: Db, job: Job, places: seq<Place>)
    requires SameRows(db1, db2)
    ensures SameRows(Clean(db1, job, places), Clean(db2, job, places))
    decreases |places|
  {
    hide Clean, Ingest;
    if places == [] {
      CleanNone(db1, job);
      CleanNone(db2, job);
    } else {
      CleanCons(db1, job, places);
      CleanCons(db2, job, places);
      IngestSame(db1, db2, job, places[0], NoFault);
      CleanSame(Ingest(db1, job, places[0], NoFault).0, Ingest(db2, job, places[0], NoFault).0, job, places[1..]);
    }
  }

  /** Whatever fails on the way, rows only grow and stay unique, and completed places are known. */
  lemma {:induction false} IngestAllFacts(db: Db, job: Job, places: seq<Place>, faults: nat -> Fault, at: nat)
    ensures var (db', n) := IngestAll(db, job, places, faults, at);
            && (Unique(db) ==> Unique(db')) && Grows(db, db')
            && forall i :: 0 <= i < n ==> Known(db', places[i])
    decreases |places|
  {
    hide Ingest, Known, Unique, Grows;
    if places == [] {
      GrowsSelf(db);
    } else {
      var (db1, outcome) := Ingest(db, job, places[0], faults(at));
      IngestFacts(db, job, places[0], faults(at));
      if outcome != Thrown {
        var rest := places[1..];
        IngestAllFacts(db1, job, rest, faults, at + 1);
        var (db', n) := IngestAll(db1, job, rest, faults, at + 1);
        GrowsTrans(db, db1, db');
        KnownGrows(db1, db', places[0]);
        assert forall i :: 1 <= i < n + 1 ==> places[i] == rest[i - 1];
      }
    }
  }

  lemma GrowsSelf(db: Db)
    ensures Grows(db, db)
  {
  }

  lemma GrowsTrans(a: Db, b: Db, c: Db)
    requires Grows(a, b) && Grows(b, c)
    ensures Grows(a, c)
  {
  }

  /** Places already known change nothing but the log, which gains one line each. */
  lemma {:induction false} KnownPlacesIdle(db: Db, job: Job, places: seq<Place>)
    requires forall p :: p in places ==> Known(db, p)
    ensures SameRows(db, Clean(db, job, places))
    ensures |Clean(db, job, places).log| == |db.log| + |places|
    decreases |places|
  {
    hide Clean, Known;
    if places == [] {
      CleanNone(db, job);
    } else {
      var db' := Ingest(db, job, places[0], NoFault).0;
      CleanCons(db, job, places);
      IngestFacts(db, job, places[0], NoFault);
      forall p | p in places[1..] ensures Known(db', p) {
        KnownGrows(db, db', p);
      }
      KnownPlacesIdle(db', job, places[1..]);
    }
  }

  /** Starting over after an undisturbed prefix gives what one undisturbed run gives. */
  lemma PrefixReplay(db: Db, job: Job, places: seq<Place>, k: nat)
    requires k <= |places|
    ensures SameRows(Clean(Clean(db, job, places[..k]), job, places), Clean(db, job, places))
  {
    hide Clean, Known, Grows, SameRows;
    var db1 := Clean(db, job, places[..k]);
    IngestAllFacts(db, job, places[..k], NO_FAULTS, 0);
    CleanShift(db, job, places[..k], 0);
    KnownPlacesIdle(db1, job, places[..k]);
    assert places == places[..k] + places[k..];
    CleanConcat(db1, job, places[..k], places[k..]);
    CleanConcat(db, job, places[..k], places[k..]);
    SameSym(db1, Clean(db1, job, places[..k]));
    CleanSame(Clean(db1, job, places[..k]), db1, job, places[k..]);
  }

  lemma SameSym(a: Db, b: Db)
    requires SameRows(a, b)
    ensures SameRows(b, a)
  {
  }

  lemma SameTrans(a: Db, b: Db, c: Db)
    requires SameRows(a, b) && SameRows(b, c)
    ensures SameRows(a, c)
  {
  }

  // ---------------------------------------------------------------- failures that no later run repairs

  /**
   * A new place whose company is saved but not its contact, or whose contact is saved but not enrolled
   * although the job enrols: from then on the place is known, so no run makes up for it.
   */
  predicate Loses(db: Db, job: Job, place: Place, fault: Fault) {
    !Known(db, place) && (fault.AtContact? || (fault.AtEnrolment? && job.campaign.Some?))
  }

  /** Some place the run got to was lost in that way. */
  predicate LosesSome(db: Db, job: Job, places: seq<Place>, faults: nat -> Fault, at: nat)
    decreases |places|
  {
    places != [] &&
    (|| Loses(db, job, places[0], faults(at))
     || (var (db', outcome) := Ingest(db, job, places[0], faults(at));
         outcome != Thrown && LosesSome(db', job, places[1..], faults, at + 1)))
  }

  /** Enrolments refer to contacts on file. */
  ghost predicate Linked(db: Db) {
    forall e :: e in db.enrolments ==> e.1 < |db.contacts|
  }

  /** Any other failure leaves the rows of an undisturbed ingestion, or those from before. */
  lemma HarmlessFault(db: Db, job: Job, place: Place, fault: Fault)
    requires !Loses(db, job, place, fault)
    ensures var (db', outcome) := Ingest(db, job, place, fault);
            SameRows(db', if outcome == Thrown then db else Ingest(db, job, place, NoFault).0)
  {
  }

  lemma {:induction false} HarmlessRun(db: Db, job: Job, places: seq<Place>, faults: nat -> Fault, at: nat)
    requires !LosesSome(db, job, places, faults, at)
    ensures var (mid, n) := IngestAll(db, job, places, faults, at); SameRows(mid, Clean(db, job, places[..n]))
    decreases |places|
  {
    hide Ingest, Loses, Clean, SameRows;
    CleanNone(db, job);
    SameSelf(db);
    if places != [] {
      var (db', outcome) := Ingest(db, job, places[0], faults(at));
      HarmlessFault(db, job, places[0], faults(at));
      if outcome == Thrown {
        assert places[..0] == [];
      } else {
        var rest := places[1..];
        HarmlessRun(db', job, rest, faults, at + 1);
        var (mid, n) := IngestAll(db', job, rest, faults, at + 1);
        var tidy := Ingest(db, job, places[0], NoFault).0;
        CleanSame(db', tidy, job, rest[..n]);
        SameTrans(mid, Clean(db', job, rest[..n]), Clean(tidy, job, rest[..n]));
        assert places[..n + 1][1..] == rest[..n] && places[..n + 1][0] == places[0];
        CleanCons(db, job, places[..n + 1]);
      }
    }
  }

  lemma SameSelf(db: Db)
    ensures SameRows(db, db)
  {
  }

  /** The trace a loss leaves: a company without its contact, or a new contact that was never enrolled. */
  ghost predicate Scarred(db0: Db, job: Job, db: Db) {
    || |db.companies| - |db.contacts| > |db0.companies| - |db0.contacts|
    || (job.campaign.Some? && exists k :: Unenrolled(db0, job, db, k))
  }

  ghost predicate Unenrolled(db0: Db, job: Job, db: Db, k: nat)
    requires job.campaign.Some?
  {
    |db0.contacts| <= k < |db.contacts| && (job.campaign.value, k) !in db.enrolments
  }

  /** Ingesting on, with or without failures, never heals a trace. */
  lemma ScarStays(db0: Db, job: Job, db: Db, place: Place, fault: Fault)
    requires Scarred(db0, job, db)
    ensures Scarred(db0, job, Ingest(db, job, place, fault).0)
  {
    var db' := Ingest(db, job, place, fault).0;
    if |db.companies| - |db.contacts| <= |db0.companies| - |db0.contacts| {
      var k :| Unenrolled(db0, job, db, k);
      assert Unenrolled(db0, job, db', k);
    }
  }

  lemma {:induction false} ScarsStay(db0: Db, job: Job, db: Db, places: seq<Place>, faults: nat -> Fault, at: nat)
    requires Scarred(db0, job, db)
    ensures Scarred(db0, job, IngestAll(db, job, places, faults, at).0)
    decreases |places|
  {
    hide Ingest, Scarred;
    if places != [] {
      var (db', outcome) := Ingest(db, job, places[0], faults(at));
      ScarStays(db0, job, db, places[0], faults(at));
      if outcome != Thrown {
        ScarsStay(db0, job, db', places[1..], faults, at + 1);
      }
    }
  }

  lemma LossScars(db0: Db, job: Job, db: Db, place: Place, fault: Fault)
    requires Loses(db, job, place, fault) && Linked(db) && |db0.contacts| <= |db.contacts|
    requires |db.companies| - |db.contacts| >= |db0.companies| - |db0.contacts|
    ensures Scarred(db0, job, Ingest(db, job, place, fault).0)
  {
    var db' := Ingest(db, job, place, fault).0;
    if fault.AtEnrolment? {
      assert Unenrolled(db0, job, db', |db.contacts|);
    }
  }

  /** Enrolments stay linked, contacts are never removed, and no contact is saved without its company. */
  lemma IngestKeepsLinks(db: Db, job: Job, place: Place, fault: Fault)
    requires Linked(db)
    ensures var db' := Ingest(db, job, place, fault).0;
            && Linked(db') && |db.contacts| <= |db'.contacts|
            && |db'.companies| - |db'.contacts| >= |db.companies| - |db.contacts|
  {
  }

  lemma {:induction false} LostIsScarred(db0: Db, job: Job, db: Db, places: seq<Place>, faults: nat -> Fault, at: nat)
    requires LosesSome(db, job, places, faults, at) && Linked(db) && |db0.contacts| <= |db.contacts|
    requires |db.companies| - |db.contacts| >= |db0.companies| - |db0.contacts|
    ensures Scarred(db0, job, IngestAll(db, job, places, faults, at).0)
    decreases |places|
  {
    hide Ingest, Scarred, Loses, Linked;
    var (db', outcome) := Ingest(db, job, places[0], faults(at));
    if Loses(db, job, places[0], faults(at)) {
      LossScars(db0, job, db, places[0], faults(at));
      if outcome != Thrown {
        ScarsStay(db0, job, db', places[1..], faults, at + 1);
      }
    } else {
      IngestKeepsLinks(db, job, places[0], faults(at));
      LostIsScarred(db0, job, db', places[1..], faults, at + 1);
    }
  }

  /** An undisturbed run leaves no trace. */
  ghost predicate Whole(db0: Db, job: Job, db: Db) {
    && |db.companies| - |db.contacts| == |db0.companies| - |db0.contacts|
    && (job.campaign.Some? ==> forall k :: !Unenrolled(db0, job, db, k))
  }

  lemma CleanStepIsWhole(db0: Db, job: Job, db: Db, place: Place)
    requires Whole(db0, job, db)
    ensures Whole(db0, job, Ingest(db, job, place, NoFault).0)
  {
    var db' := Ingest(db, job, place, NoFault).0;
    if job.campaign.Some? {
      forall k ensures !Unenrolled(db0, job, db', k) {
        assert !Unenrolled(db0, job, db, k);
      }
    }
  }

  lemma {:induction false} CleanIsWhole(db0: Db, job: Job, db: Db, places: seq<Place>)
    requires Whole(db0, job, db)
    ensures Whole(db0, job, Clean(db, job, places))
    decreases |places|
  {
    hide Ingest, Whole, Clean;
    if places == [] {
      CleanNone(db, job);
    } else {
      CleanCons(db, job, places);
      CleanStepIsWhole(db0, job, db, places[0]);
      CleanIsWhole(db0, job, Ingest(db, job, places[0], NoFault).0, places[1..]);
    }
  }

  lemma WholeIsUnscarred(db0: Db, job: Job, db: Db, db': Db)
    requires Whole(db0, job, db) && Scarred(db0, job, db')
    ensures !SameRows(db', db)
  {
    if job.campaign.Some? && SameRows(db', db) {
      var k :| Unenrolled(db0, job, db', k);
      assert Unenrolled(db0, job, db, k);
    }
  }

  /**
   * A run with any failures whatever, and then an undisturbed one over the same places, leave the
   * companies, contacts and enrolments of a single undisturbed run exactly when no place was lost: no
   * exception between saving a new place's company and its contact, and no failed enrolment of a new
   * contact in a job that enrols.
   */
  lemma ReplayCompletes(db: Db, job: Job, places: seq<Place>, faults: nat -> Fault)
    requires Linked(db)
    ensures SameRows(Clean(IngestAll(db, job, places, faults, 0).0, job, places), Clean(db, job, places))
            <==> !LosesSome(db, job, places, faults, 0)
  {
    hide Ingest, Clean, SameRows, Scarred, Whole, IngestAll, LosesSome, Linked;
    var (mid, n) := IngestAll(db, job, places, faults, 0);
    if LosesSome(db, job, places, faults, 0) {
      LostIsScarred(db, job, db, places, faults, 0);
      CleanShift(mid, job, places, 0);
      ScarsStay(db, job, mid, places, NO_FAULTS, 0);
      NothingYetIsWhole(db, job);
      CleanIsWhole(db, job, db, places);
      WholeIsUnscarred(db, job, Clean(db, job, places), Clean(mid, job, places));
    } else {
      HarmlessRun(db, job, places, faults, 0);
      CleanSame(mid, Clean(db, job, places[..n]), job, places);
      PrefixReplay(db, job, places, n);
      SameTrans(Clean(mid, job, places), Clean(Clean(db, job, places[..n]), job, places), Clean(db, job, places));
    }
  }

  lemma NothingYetIsWhole(db: Db, job: Job)
    ensures Whole(db, job, db)
  {
  }

  /**
   * Trying one new place again: the contact is on file exactly when the failure was not between saving
   * company and contact, and enrolled, in a job that enrols, exactly when it was not the enrolment either.
   */
  lemma RetryRecovers(db: Db, job: Job, place: Place, fault: Fault)
    requires !Known(db, place) && Linked(db)
    ensures var retried := Ingest(Ingest(db, job, place, fault).0, job, place, NoFault).0;
            var found := FindContact(retried.contacts, place.phone.value);
            && (found.Some? <==> !fault.AtContact?)
            && (found.Some? && job.campaign.Some? ==>
                  ((job.campaign.value, found.value) in retried.enrolments <==> !fault.AtEnrolment?))
  {
    var (db1, outcome) := Ingest(db, job, place, fault);
    if fault == AtContact {
      assert db1.companies[|db.companies|].placeId == Some(place.id);
      assert FindCompany(db1.companies, place.id).Some?;
    } else if outcome == Imported {
      assert db1.contacts[|db.contacts|].number == place.phone.value;
      assert FindContact(db1.contacts, place.phone.value) == Some(|db.contacts|);
    }
  }
}
