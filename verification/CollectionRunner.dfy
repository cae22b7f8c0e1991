/** `executeJob` and the hourly cycle: a paginated, limited scrape with a persisted cursor. */
module CollectionRunner {
  import opened Options
  import opened Seqs
  import opened CollectionIngest

  const PAGE_SIZE := 20
  const DEFAULT_LIMIT := 100

  datatype ProviderError = Quota | Auth | Other

  /** The provider's answer; `StalePage` rejects a token issued for other request parameters. */
  datatype Answer = Page(places: seq<Place>, next: Option<nat>) | StalePage | Refused(error: ProviderError)

  /** A deterministic provider: query index and page token to answer. */
  type Provider = (nat, Option<nat>) -> Answer

  datatype Cursor = Cursor(query: nat, token: Option<nat>)

  datatype Status = Active | Paused | Completed | Failed

  datatype JobRow = JobRow(
    id: nat, campaign: Option<nat>, queries: nat, dailyLimit: int, cursor: Cursor, collected: nat,
    lastRun: Option<nat>, status: Status)

  /** How many pages a query has left after `token`: it has finitely many. */
  type PagesLeft = (nat, Option<nat>) -> nat

  /** Every next page is closer to the end, and a token the provider just issued is accepted. */
  ghost predicate Paged(provider: Provider, left: PagesLeft) {
    forall q: nat, t: Option<nat> :: provider(q, t).Page? ==>
      && |provider(q, t).places| <= PAGE_SIZE
      && (provider(q, t).next.Some? ==> left(q, provider(q, t).next) < left(q, t)
                                        && !provider(q, provider(q, t).next).StalePage?)
  }

  // ---------------------------------------------------------------- the pages of a job

  function Next(c: Cursor, next: Option<nat>): Cursor {
    if next.Some? then Cursor(c.query, next) else Cursor(c.query + 1, None)
  }

  /** The cursors of all pages from `c` on, up to the end or to an answer that is not a page. */
  ghost function Trail(provider: Provider, left: PagesLeft, queries: nat, c: Cursor): seq<Cursor>
    requires Paged(provider, left)
    decreases if c.query < queries then queries - c.query else 0, left(c.query, c.token)
  {
    if c.query >= queries || !provider(c.query, c.token).Page? then []
    else [c] + Trail(provider, left, queries, Next(c, provider(c.query, c.token).next))
  }

  /**
   * The pages ahead begin at the cursor; each is followed by the page its answer names, or by the first
   * page of the next query when it names none; they end where the queries do, or at an answer that is
   * not a page.
   */
  lemma {:induction false} TrailMeans(provider: Provider, left: PagesLeft, queries: nat, c: Cursor, i: nat)
    requires Paged(provider, left) && i < |Trail(provider, left, queries, c)|
    ensures var pages := Trail(provider, left, queries, c); var p := pages[i]; var answer := provider(p.query, p.token);
            && pages[0] == c && p.query < queries && answer.Page?
            && var follower := if answer.next.Some? then Cursor(p.query, answer.next) else Cursor(p.query + 1, None);
               if i + 1 < |pages| then pages[i + 1] == follower
               else follower.query >= queries || !provider(follower.query, follower.token).Page?
    decreases i
  {
    var next := Next(c, provider(c.query, c.token).next);
    var rest := Trail(provider, left, queries, next);
    assert Trail(provider, left, queries, c) == [c] + rest;
    if i > 0 {
      TrailMeans(provider, left, queries, next, i - 1);
    } else if rest != [] {
      assert rest[0] == next;
    }
  }

  function PlacesOf(provider: Provider, pages: seq<Cursor>): seq<Place> {
    if pages == [] then []
    else
      var c := pages[|pages| - 1];
      PlacesOf(provider, pages[..|pages| - 1])
      + (if provider(c.query, c.token).Page? then provider(c.query, c.token).places else [])
  }

  /** Where a run really starts: a token the provider no longer accepts is dropped. */
  function Restart(provider: Provider, c: Cursor): Cursor {
    if c.token.Some? && provider(c.query, c.token).StalePage? then Cursor(c.query, None) else c
  }

  function Resume(row: JobRow): Cursor {
    Cursor(if row.cursor.query <= row.queries then row.cursor.query else row.queries, row.cursor.token)
  }

  function Limit(row: JobRow): int {
    if row.dailyLimit == 0 then DEFAULT_LIMIT else row.dailyLimit
  }

  /**
   * What a run may import, in the job's own number: at most that many, exactly that many unless every
   * query is used up, nothing for a negative one, and 100 standing in for none.
   */
  predicate WithinLimit(dailyLimit: int, imported: nat, exhausted: bool) {
    && (dailyLimit > 0 ==> imported <= dailyLimit && (!exhausted ==> imported == dailyLimit))
    && (dailyLimit == 0 ==> imported <= 100 && (!exhausted ==> imported == 100))
    && (dailyLimit < 0 ==> imported == 0)
  }

  lemma LimitMeans(row: JobRow)
    ensures Limit(row) == if row.dailyLimit == 0 then 100 else row.dailyLimit
  {
  }

  // ---------------------------------------------------------------- one run

  datatype Summary = Summary(imported: nat, duplicates: nat, invalid: nat, scanned: nat, exhausted: bool)

  datatype Result = Ran(summary: Summary) | AlreadyRunning | Provider(error: ProviderError) | DatabaseError

  /** What a run did, page by page and place by place. */
  datatype RunLog = RunLog(start: Cursor, pages: seq<Cursor>, end: Cursor, ingested: seq<Place>, lost: seq<Place>)

  /** What a completed run leaves behind. */
  ghost predicate Recorded(provider: Provider, left: PagesLeft, row: JobRow, row': JobRow, db: Db, db': Db,
                           faults: nat -> Fault, s: Summary, log: RunLog, today: nat)
    requires Paged(provider, left)
  {
    && row' == row.(lastRun := Some(today), collected := row.collected + s.imported, cursor := log.end,
                    status := if s.exhausted then Completed else row.status)
    && log.end.query <= row.queries
    && (s.exhausted <==> log.end.query == row.queries)
    && (s.exhausted || s.imported >= Limit(row))
    && WithinLimit(row.dailyLimit, s.imported, s.exhausted)
    && Covered(provider, left, row.queries, log)
    && PlacesOf(provider, log.pages) == log.ingested + log.lost
    && |log.lost| < PAGE_SIZE && (log.lost != [] ==> s.imported == Limit(row))
    && IngestAll(db, Job(row.id, row.campaign), log.ingested, faults, 0) == (db', |log.ingested|)
    && s.imported + s.duplicates + s.invalid == |log.ingested|
    && s.scanned == |log.ingested| + |log.lost|
    && (s.imported > 0 ==> s.imported <= Limit(row))
    && |db'.contacts| == |db.contacts| + s.imported
  }

  /** The pages fetched, and then those still ahead, are the pages ahead at the start. */
  ghost predicate Covered(provider: Provider, left: PagesLeft, queries: nat, log: RunLog)
    requires Paged(provider, left)
  {
    log.pages + Trail(provider, left, queries, Restart(provider, log.end)) == Trail(provider, left, queries, log.start)
  }

  /** What a run that ended in an exception leaves behind. */
  predicate Unrecorded(row: JobRow, row': JobRow) {
    row' == row || row' == row.(cursor := row.cursor.(token := None))
  }

  /** The provider rejected the page at `c` with this error; a stale token no longer there is an error too. */
  predicate RefusedAt(provider: Provider, c: Cursor, error: ProviderError) {
    provider(c.query, c.token) == Refused(error)
    || (provider(c.query, c.token).StalePage? && c.token.None? && error == Other)
  }

  class Runner {
    var jobs: map<nat, JobRow>
    var db: Db
    var running: set<nat>

    constructor (jobs: map<nat, JobRow>, db: Db)
      ensures this.jobs == jobs && this.db == db && running == {}
    {
      this.jobs, this.db, this.running := jobs, db, {};
    }

    /**
     * Ingest one page up to the limit. `ok` is false when an exception got out; `used` is how far the
     * page was read.
     */
    method IngestPage(job: Job, places: seq<Place>, limit: int, imported0: nat, faults: nat -> Fault, at: nat)
      returns (ok: bool, used: nat, imported: nat, duplicates: nat, invalid: nat)
      requires imported0 < limit
      modifies this`db
      ensures used <= |places| && imported0 <= imported <= limit
      ensures Unique(old(db)) ==> Unique(db)
      ensures Grows(old(db), db)
      ensures imported - imported0 + duplicates + invalid == used
      ensures |db.contacts| - |old(db).contacts| == imported - imported0
      ensures ok ==> used == |places| || imported == limit
      ensures ok ==> places != [] ==> used > 0
      ensures ok ==> IngestAll(old(db), job, places[..used], faults, at) == (db, used)
      ensures !ok ==> used < |places| && IngestAll(old(db), job, places, faults, at) == (db, used)
    {
      hide Ingest, Unique, Grows, IngestAll;
      imported, duplicates, invalid := imported0, 0, 0;
      ok := true;
      used := 0;
      GrowsSelf(db);
      IngestAllNone(db, job, faults, at);
      while used < |places|
        invariant 0 <= used <= |places| && imported0 <= imported <= limit
        invariant Unique(old(db)) ==> Unique(db)
        invariant Grows(old(db), db)
        invariant imported - imported0 + duplicates + invalid == used
        invariant |db.contacts| - |old(db).contacts| == imported - imported0
        invariant IngestAll(old(db), job, places[..used], faults, at) == (db, used)
      {
        if imported >= limit {
          break;
        }
        ghost var before := db;
        var (db', outcome) := Ingest(db, job, places[used], faults(at + used));
        IngestFacts(db, job, places[used], faults(at + used));
        IngestAllSnoc(old(db), job, places[..used], places[used], faults, at);
        assert places[..used] + [places[used]] == places[..used + 1];
        db := db';
        GrowsTrans(old(db), before, db);
        if outcome == Thrown {
          ok := false;
          IngestAllConcat(old(db), job, places[..used + 1], places[used + 1..], faults, at);
          assert places[..used + 1] + places[used + 1..] == places;
          return;
        }
        if outcome == Imported {
          imported := imported + 1;
        } else if outcome == Duplicate {
          duplicates := duplicates + 1;
        } else {
          invalid := invalid + 1;
        }
        used := used + 1;
      }
    }

    /** Take in the page at the cursor. `ok` is false when an exception got out. */
    method ReadPage(row: JobRow, provider: Provider, ghost left: PagesLeft, faults: nat -> Fault, cursor: Cursor,
                    tally: Tally, ghost log: RunLog, ghost stored: bool, ghost db0: Db)
      returns (ok: bool, tally': Tally, ghost log': RunLog)
      requires Paged(provider, left) && Progress(provider, left, row, db0, db, faults, cursor, tally, log, stored)
      requires cursor.query < row.queries && provider(cursor.query, cursor.token).Page?
      requires tally.imported < Limit(row)
      modifies this`db
      ensures Unique(old(db)) ==> Unique(db)
      ensures Grows(old(db), db)
      ensures tally'.imported <= Limit(row)
      ensures |db.contacts| - |old(db).contacts| == tally'.imported - tally.imported
      ensures ok ==> log'.start == log.start
      ensures ok ==> Progress(provider, left, row, db0, db, faults,
                              Next(cursor, provider(cursor.query, cursor.token).next), tally', log', false)
    {
      hide Progress, Unique, Grows, IngestAll, Limit;
      var job := Job(row.id, row.campaign);
      var page := provider(cursor.query, cursor.token);
      var at := tally.imported + tally.duplicates + tally.invalid;
      var used, imported, duplicates, invalid;
      ok, used, imported, duplicates, invalid :=
        IngestPage(job, page.places, Limit(row), tally.imported, faults, at);
      log' := PageRead(log, cursor, page.places, used, page.next);
      tally' := Tally(
        imported, tally.duplicates + duplicates, tally.invalid + invalid, tally.scanned + |page.places|);
      if ok {
        ProgressPage(provider, left, row, db0, old(db), db, faults, cursor, tally, log, stored, used, tally');
      }
    }

    /**
     * One run of a job: resumes at its cursor, stops at its limit or when every query is used up, and
     * writes the cursor back. An exception leaves cursor and total as they were, except that a stale
     * token has been cleared.
     */
    method ExecuteJob(id: nat, provider: Provider, ghost left: PagesLeft, faults: nat -> Fault, today: nat)
      returns (result: Result, ghost log: RunLog)
      requires id in jobs && Paged(provider, left)
      modifies this
      ensures running == old(running)
      ensures Unique(old(db)) ==> Unique(db)
      ensures Grows(old(db), db)
      ensures jobs.Keys == old(jobs).Keys && forall j :: j in jobs && j != id ==> jobs[j] == old(jobs)[j]
      ensures result.AlreadyRunning? <==> id in old(running)
      ensures result.AlreadyRunning? ==> db == old(db) && jobs == old(jobs)
      ensures log.start == Restart(provider, Resume(old(jobs)[id]))
      ensures result.Ran? ==>
                Recorded(provider, left, old(jobs)[id], jobs[id], old(db), db, faults, result.summary, log, today)
      ensures !result.Ran? ==> Unrecorded(old(jobs)[id], jobs[id])
      ensures var limit := old(jobs)[id].dailyLimit; var added := |db.contacts| - |old(db).contacts|;
              && (limit > 0 ==> added <= limit) && (limit == 0 ==> added <= 100) && (limit < 0 ==> db == old(db))
      ensures result.Provider? ==> RefusedAt(provider, log.end, result.error)
      ensures result.DatabaseError? ==> provider(log.end.query, log.end.token).Page?
    {
      hide Progress, Recorded, Unique, Grows, IngestAll, Restart, RefusedAt, WithinLimit, Covered, PlacesOf, Limit;
      LimitMeans(jobs[id]);
      var row := jobs[id];
      var cursor := Resume(row);
      log := RunLog(Restart(provider, cursor), [], Restart(provider, cursor), [], []);
      GrowsSelf(db);
      if id in running {
        return AlreadyRunning, log;
      }
      running := running + {id};
      var limit := Limit(row);
      var tally := Tally(0, 0, 0, 0);
      ghost var stored := true;
      ProgressStarts(provider, left, row, db, faults);
      while tally.imported < limit && cursor.query < row.queries
        invariant jobs.Keys == old(jobs).Keys && forall j :: j in jobs && j != id ==> jobs[j] == old(jobs)[j]
        invariant running == old(running) + {id}
        invariant Unrecorded(row, jobs[id])
        invariant Unique(old(db)) ==> Unique(db)
        invariant Grows(old(db), db)
        invariant |db.contacts| == |old(db).contacts| + tally.imported
        invariant tally.imported == 0 || tally.imported <= limit
        invariant limit <= 0 ==> db == old(db)
        invariant cursor.query <= row.queries
        invariant Progress(provider, left, row, old(db), db, faults, cursor, tally, log, stored)
        invariant log.start == Restart(provider, Resume(row))
        decreases stored, row.queries - cursor.query, left(cursor.query, cursor.token)
      {
        var answer := provider(cursor.query, cursor.token);
        match answer
        case StalePage =>
          if cursor.token.None? {
            RefusedHere(provider, left, row, old(db), db, faults, cursor, tally, log, stored, Other);
            running := running - {id};
            return Provider(Other), log;
          }
          ProgressRestarts(provider, left, row, old(db), db, faults, cursor, tally, log, stored);
          jobs := jobs[id := row.(cursor := row.cursor.(token := None))];
          cursor := Cursor(cursor.query, None);
          stored := false;
        case Refused(error) =>
          RefusedHere(provider, left, row, old(db), db, faults, cursor, tally, log, stored, error);
          running := running - {id};
          return Provider(error), log;
        case Page(places, next) =>
          ghost var before := db;
          var ok, tally', log' := ReadPage(row, provider, left, faults, cursor, tally, log, stored, old(db));
          GrowsTrans(old(db), before, db);
          if !ok {
            PageHere(provider, left, row, old(db), before, faults, cursor, tally, log, stored);
            running := running - {id};
            return DatabaseError, log;
          }
          tally, log, stored := tally', log', false;
          cursor := Next(cursor, next);
      }
      var exhausted := cursor.query >= row.queries;
      jobs := jobs[id := jobs[id].(
        lastRun := Some(today), collected := row.collected + tally.imported, cursor := cursor,
        status := if exhausted then Completed else row.status)];
      running := running - {id};
      var summary := Summary(tally.imported, tally.duplicates, tally.invalid, tally.scanned, exhausted);
      ProgressEnds(provider, left, row, jobs[id], old(db), db, faults, cursor, tally, log, stored, summary, today);
      log := log.(end := cursor);
      return Ran(summary), log;
    }

    /**
     * What the hourly tick does for one job: at most one run a day, and an exception decides the status.
     * `result` is None when the job has run today.
     */
    method Tick(id: nat, provider: Provider, ghost left: PagesLeft, faults: nat -> Fault, today: nat)
      returns (ghost result: Option<Result>)
      requires id in jobs && Paged(provider, left)
      modifies this
      ensures running == old(running) && jobs.Keys == old(jobs).Keys
      ensures Unique(old(db)) ==> Unique(db)
      ensures Grows(old(db), db)
      ensures forall j :: j in jobs && j != id ==> jobs[j] == old(jobs)[j]
      ensures Settled(jobs[id], today)
      ensures old(jobs)[id].lastRun == Some(today) ==> jobs == old(jobs) && db == old(db)
      ensures result.None? <==> old(jobs)[id].lastRun == Some(today)
      ensures result.Some? ==> (result.value.AlreadyRunning? <==> id in old(running))
      ensures result.Some? ==> Recovered(old(jobs)[id], jobs[id], result.value, today)
    {
      hide Unique, Grows, Recorded, Restart, Paged, RefusedAt;
      GrowsSelf(db);
      if jobs[id].lastRun == Some(today) {
        return None;
      }
      ghost var row := jobs[id];
      var outcome, log := ExecuteJob(id, provider, left, faults, today);
      result := Some(outcome);
      match outcome
      case Ran(summary) =>
        RecordedSettles(provider, left, row, jobs[id], old(db), db, faults, summary, log, today);
      case Provider(Quota) => jobs := jobs[id := jobs[id].(lastRun := Some(today))];
      case Provider(Auth) => jobs := jobs[id := jobs[id].(status := Paused)];
      case Provider(Other) => jobs := jobs[id := jobs[id].(status := Failed)];
      case AlreadyRunning => jobs := jobs[id := jobs[id].(status := Failed)];
      case DatabaseError => jobs := jobs[id := jobs[id].(status := Failed)];
    }

    /**
     * The hourly tick: nothing without an API key, else one `Tick` for every active job, in whatever
     * order the table yields them. Afterwards every job has run today or is not active, and a tick that
     * finds the jobs so changes nothing.
     */
    method RunCollectionCycle(configured: bool, providers: nat -> Provider, ghost lefts: nat -> PagesLeft,
                              faults: nat -> Fault, today: nat)
      requires forall id :: id in jobs ==> Paged(providers(id), lefts(id))
      modifies this
      ensures running == old(running) && jobs.Keys == old(jobs).Keys
      ensures Unique(old(db)) ==> Unique(db)
      ensures Grows(old(db), db)
      ensures !configured ==> jobs == old(jobs) && db == old(db)
      ensures forall j :: j in jobs && j !in ActiveIds(old(jobs)) ==> jobs[j] == old(jobs)[j]
      ensures configured ==> AllSettled(jobs, today)
      ensures AllSettled(old(jobs), today) ==> jobs == old(jobs) && db == old(db)
    {
      hide Unique, Grows, Paged;
      GrowsSelf(db);
      if !configured {
        return;
      }
      var active := ActiveIds(jobs);
      var todo := active;
      while todo != {}
        invariant running == old(running) && jobs.Keys == old(jobs).Keys && todo <= active
        invariant Unique(old(db)) ==> Unique(db)
        invariant Grows(old(db), db)
        invariant forall j :: j in jobs && (j !in active || j in todo) ==> jobs[j] == old(jobs)[j]
        invariant forall j :: j in active && j !in todo ==> Settled(jobs[j], today)
        invariant AllSettled(old(jobs), today) ==> jobs == old(jobs) && db == old(db)
        decreases |todo|
      {
        var id :| id in todo;
        ghost var before := db;
        ghost var result := Tick(id, providers(id), lefts(id), faults, today);
        GrowsTrans(old(db), before, db);
        todo := todo - {id};
      }
    }
  }

  /**
   * What the hourly tick leaves of a job: a refused quota counts as today's run and keeps the job active, a
   * refused key pauses it, any other exception fails it, and each leaves cursor and total for the next run.
   */
  predicate Recovered(row: JobRow, row': JobRow, result: Result, today: nat) {
    match result
    case Ran(summary) =>
      row'.lastRun == Some(today) && row'.collected == row.collected + summary.imported
      && row'.status == if summary.exhausted then Completed else row.status
    case Provider(Quota) =>
      row'.lastRun == Some(today) && row'.status == row.status && Kept(row, row')
    case Provider(Auth) => row'.lastRun == row.lastRun && row'.status == Paused && Kept(row, row')
    case _ => row'.lastRun == row.lastRun && row'.status == Failed && Kept(row, row')
  }

  /** Cursor and total are as they were, but for a stale token that was cleared. */
  predicate Kept(row: JobRow, row': JobRow) {
    row'.collected == row.collected && row'.dailyLimit == row.dailyLimit && row'.cursor.query == row.cursor.query
    && (row'.cursor.token == row.cursor.token || row'.cursor.token.None?)
  }

  /** The jobs the tick selects. */
  function ActiveIds(jobs: map<nat, JobRow>): set<nat> {
    set id | id in jobs && jobs[id].status == Active
  }

  predicate AllSettled(jobs: map<nat, JobRow>, today: nat) {
    forall j :: j in jobs ==> Settled(jobs[j], today)
  }

  /** Nothing left for the cycle to do with this job today. */
  predicate Settled(row: JobRow, today: nat) {
    row.lastRun == Some(today) || row.status != Active
  }

  lemma RecordedSettles(provider: Provider, left: PagesLeft, row: JobRow, row': JobRow, db: Db, db': Db,
                        faults: nat -> Fault, s: Summary, log: RunLog, today: nat)
    requires Paged(provider, left) && Recorded(provider, left, row, row', db, db', faults, s, log, today)
    ensures Settled(row', today) && Recovered(row, row', Ran(s), today)
  {
    hide Covered, PlacesOf, IngestAll;
  }

  // ---------------------------------------------------------------- the loop, step by step

  datatype Tally = Tally(imported: nat, duplicates: nat, invalid: nat, scanned: nat)

  /** The invariant of a run; `stored` while the cursor is still the persisted one. */
  ghost predicate Progress(provider: Provider, left: PagesLeft, row: JobRow, db0: Db, db: Db, faults: nat -> Fault,
                           cursor: Cursor, t: Tally, log: RunLog, stored: bool)
    requires Paged(provider, left)
  {
    && log.start == Restart(provider, Resume(row))
    && log.end == Restart(provider, cursor) && Restart(provider, log.end) == log.end
    && (if stored then log.pages == [] && cursor == Resume(row) else log.end == cursor)
    && Covered(provider, left, row.queries, log)
    && PlacesOf(provider, log.pages) == log.ingested + log.lost
    && |log.lost| < PAGE_SIZE && (log.lost != [] ==> t.imported == Limit(row))
    && IngestAll(db0, Job(row.id, row.campaign), log.ingested, faults, 0) == (db, |log.ingested|)
    && t.imported + t.duplicates + t.invalid == |log.ingested|
    && t.scanned == |log.ingested| + |log.lost|
    && (t.imported > 0 ==> t.imported <= Limit(row))
    && |db.contacts| == |db0.contacts| + t.imported
  }

  /** The log after one more page, `used` of whose places were ingested. */
  ghost function PageRead(log: RunLog, c: Cursor, places: seq<Place>, used: nat, next: Option<nat>): RunLog
    requires used <= |places|
  {
    log.(pages := log.pages + [c], ingested := log.ingested + places[..used], lost := places[used..],
         end := Next(c, next))
  }

  lemma ProgressStarts(provider: Provider, left: PagesLeft, row: JobRow, db: Db, faults: nat -> Fault)
    requires Paged(provider, left)
    ensures var c := Restart(provider, Resume(row));
            Progress(provider, left, row, db, db, faults, Resume(row), Tally(0, 0, 0, 0), RunLog(c, [], c, [], []),
                     true)
  {
    IngestAllNone(db, Job(row.id, row.campaign), faults, 0);
  }

  /** Only the persisted token can be stale; dropping it restarts the query. */
  lemma ProgressRestarts(provider: Provider, left: PagesLeft, row: JobRow, db0: Db, db: Db, faults: nat -> Fault,
                         c: Cursor, t: Tally, log: RunLog, stored: bool)
    requires Paged(provider, left) && Progress(provider, left, row, db0, db, faults, c, t, log, stored)
    requires c.token.Some? && provider(c.query, c.token).StalePage?
    ensures stored
    ensures Progress(provider, left, row, db0, db, faults, Cursor(c.query, None), t, log, false)
  {
    hide Covered, PlacesOf, IngestAll;
  }

  lemma RefusedHere(provider: Provider, left: PagesLeft, row: JobRow, db0: Db, db: Db, faults: nat -> Fault,
                    c: Cursor, t: Tally, log: RunLog, stored: bool, error: ProviderError)
    requires Paged(provider, left) && Progress(provider, left, row, db0, db, faults, c, t, log, stored)
    requires var answer := provider(c.query, c.token);
             answer == Refused(error) || (answer.StalePage? && c.token.None? && error == Other)
    ensures RefusedAt(provider, log.end, error)
  {
    hide Covered, PlacesOf, IngestAll, Paged;
  }

  lemma PageHere(provider: Provider, left: PagesLeft, row: JobRow, db0: Db, db: Db, faults: nat -> Fault,
                 c: Cursor, t: Tally, log: RunLog, stored: bool)
    requires Paged(provider, left) && Progress(provider, left, row, db0, db, faults, c, t, log, stored)
    requires provider(c.query, c.token).Page?
    ensures log.end == c
  {
    hide Covered, PlacesOf, IngestAll, Paged;
  }

  lemma ProgressPage(provider: Provider, left: PagesLeft, row: JobRow, db0: Db, db1: Db, db2: Db,
                     faults: nat -> Fault, c: Cursor, t: Tally, log: RunLog, stored: bool, used: nat, t': Tally)
    requires Paged(provider, left) && Progress(provider, left, row, db0, db1, faults, c, t, log, stored)
    requires c.query < row.queries && provider(c.query, c.token).Page? && t.imported < Limit(row)
    requires used <= |provider(c.query, c.token).places|
    requires var places := provider(c.query, c.token).places;
             && IngestAll(db1, Job(row.id, row.campaign), places[..used], faults, t.imported + t.duplicates + t.invalid)
                == (db2, used)
             && (used == |places| || t'.imported == Limit(row)) && (places != [] ==> used > 0)
             && t.imported <= t'.imported <= Limit(row)
             && t'.imported - t.imported + (t'.duplicates - t.duplicates) + (t'.invalid - t.invalid) == used
             && t'.scanned == t.scanned + |places|
             && |db2.contacts| - |db1.contacts| == t'.imported - t.imported
    ensures var answer := provider(c.query, c.token);
            Progress(provider, left, row, db0, db2, faults, Next(c, answer.next), t',
                     PageRead(log, c, answer.places, used, answer.next), false)
  {
    hide Trail, PlacesOf, IngestAll;
    var answer := provider(c.query, c.token);
    var places := answer.places;
    assert log.lost == [] && log.end == c;
    TrailStep(provider, left, row.queries, c, log.pages);
    PlacesStep(provider, log.pages, c);
    IngestAllConcat(db0, Job(row.id, row.campaign), log.ingested, places[..used], faults, 0);
    assert log.ingested + [] + places == (log.ingested + places[..used]) + places[used..];
  }

  lemma ProgressEnds(provider: Provider, left: PagesLeft, row: JobRow, row': JobRow, db0: Db, db: Db,
                     faults: nat -> Fault, c: Cursor, t: Tally, log: RunLog, stored: bool, s: Summary, today: nat)
    requires Paged(provider, left) && Progress(provider, left, row, db0, db, faults, c, t, log, stored)
    requires c.query <= row.queries && (c.query == row.queries || t.imported >= Limit(row))
    requires s == Summary(t.imported, t.duplicates, t.invalid, t.scanned, c.query >= row.queries)
    requires row' == row.(lastRun := Some(today), collected := row.collected + t.imported, cursor := c,
                          status := if s.exhausted then Completed else row.status)
    ensures Recorded(provider, left, row, row', db0, db, faults, s, log.(end := c), today)
  {
    hide Trail, PlacesOf, IngestAll;
  }

  lemma PlacesStep(provider: Provider, pages: seq<Cursor>, c: Cursor)
    requires provider(c.query, c.token).Page?
    ensures PlacesOf(provider, pages + [c]) == PlacesOf(provider, pages) + provider(c.query, c.token).places
  {
    assert (pages + [c])[..|pages|] == pages;
  }

  /** Fetching one page moves it from the pages ahead to the pages fetched. */
  lemma TrailStep(provider: Provider, left: PagesLeft, queries: nat, c: Cursor, pages: seq<Cursor>)
    requires Paged(provider, left) && c.query < queries && provider(c.query, c.token).Page?
    ensures var next := Next(c, provider(c.query, c.token).next);
            && Restart(provider, next) == next
            && pages + Trail(provider, left, queries, c) == (pages + [c]) + Trail(provider, left, queries, next)
  {
    Assoc(pages, [c], Trail(provider, left, queries, Next(c, provider(c.query, c.token).next)));
  }

  // ---------------------------------------------------------------- many runs of one job

  /** One completed run: the row before and after, the tables before and after, what it did. */
  datatype RunFact = RunFact(row: JobRow, row': JobRow, db: Db, db': Db, faults: nat -> Fault, summary: Summary,
                             log: RunLog, today: nat)

  ghost predicate IsRun(provider: Provider, left: PagesLeft, f: RunFact)
    requires Paged(provider, left)
  {
    Recorded(provider, left, f.row, f.row', f.db, f.db', f.faults, f.summary, f.log, f.today)
    && f.log.start == Restart(provider, Resume(f.row))
  }

  /** Each run resumes where the one before left off; anything else about the job may have changed. */
  ghost predicate Chain(provider: Provider, left: PagesLeft, runs: seq<RunFact>)
    requires Paged(provider, left)
  {
    && (forall i :: 0 <= i < |runs| ==> IsRun(provider, left, runs[i]))
    && (forall i :: 0 < i < |runs| ==> (runs[i].row.cursor == runs[i - 1].row'.cursor
                                       && runs[i].row.queries == runs[i - 1].row.queries))
  }

  function AllPages(runs: seq<RunFact>): seq<Cursor> {
    if runs == [] then [] else AllPages(runs[..|runs| - 1]) + runs[|runs| - 1].log.pages
  }

  function AllLost(runs: seq<RunFact>): seq<Place> {
    if runs == [] then [] else AllLost(runs[..|runs| - 1]) + runs[|runs| - 1].log.lost
  }

  /** The pages of the runs so far, then those still ahead, are the pages ahead at the first start. */
  lemma {:induction false} ChainCovers(provider: Provider, left: PagesLeft, runs: seq<RunFact>)
    requires Paged(provider, left) && runs != [] && Chain(provider, left, runs)
    ensures var last := runs[|runs| - 1]; var queries := runs[0].row.queries;
            AllPages(runs) + Trail(provider, left, queries, Restart(provider, last.log.end))
            == Trail(provider, left, queries, runs[0].log.start)
    ensures runs[|runs| - 1].row.queries == runs[0].row.queries
    decreases |runs|
  {
    hide Trail, Restart, PlacesOf, IngestAll, Paged;
    var n := |runs| - 1;
    var last := runs[n];
    assert IsRun(provider, left, last);
    if n == 0 {
      assert AllPages(runs) == last.log.pages by { assert runs[..0] == []; }
    } else {
      var init := runs[..n];
      ChainCovers(provider, left, init);
      var prev := init[n - 1];
      assert IsRun(provider, left, prev);
      var ahead := Trail(provider, left, runs[0].row.queries, Restart(provider, last.log.end));
      Assoc(AllPages(init), last.log.pages, ahead);
    }
  }

  /**
   * However small the limits, the pages of successive runs are exactly those of one run without a
   * limit: none skipped, none fetched twice.
   */
  lemma LimitedRunsFetchTheSame(provider: Provider, left: PagesLeft, runs: seq<RunFact>, unlimited: RunFact)
    requires Paged(provider, left) && runs != [] && Chain(provider, left, runs) && IsRun(provider, left, unlimited)
    requires unlimited.row.cursor == runs[0].row.cursor && unlimited.row.queries == runs[0].row.queries
    requires unlimited.summary.exhausted && runs[|runs| - 1].summary.exhausted
    ensures AllPages(runs) == unlimited.log.pages
    ensures Distinct(AllPages(runs))
  {
    hide Trail, PlacesOf, IngestAll, Paged, AllPages, Restart;
    var last := runs[|runs| - 1];
    assert IsRun(provider, left, last);
    ChainCovers(provider, left, runs);
    var queries := runs[0].row.queries;
    NoneAhead(provider, left, queries, last.log.end);
    NoneAhead(provider, left, queries, unlimited.log.end);
    assert IsRun(provider, left, runs[0]);
    assert AllPages(runs) + [] == AllPages(runs) && unlimited.log.pages + [] == unlimited.log.pages;
    TrailDistinct(provider, left, queries, runs[0].log.start);
  }

  lemma NoneAhead(provider: Provider, left: PagesLeft, queries: nat, c: Cursor)
    requires Paged(provider, left) && c.query == queries
    ensures Trail(provider, left, queries, Restart(provider, c)) == []
  {
  }

  /** A page further on has fewer pages after it. */
  ghost predicate After(left: PagesLeft, c: Cursor, x: Cursor) {
    x.query > c.query || (x.query == c.query && left(x.query, x.token) < left(c.query, c.token))
  }

  lemma {:induction false} TrailAfter(provider: Provider, left: PagesLeft, queries: nat, c: Cursor, i: nat)
    requires Paged(provider, left) && i < |Trail(provider, left, queries, c)|
    ensures var x := Trail(provider, left, queries, c)[i]; x == c || After(left, c, x)
    decreases i
  {
    if i > 0 {
      var next := Next(c, provider(c.query, c.token).next);
      TrailAfter(provider, left, queries, next, i - 1);
    }
  }

  ghost predicate Distinct(s: seq<Cursor>) {
    forall i, j :: 0 <= i < j < |s| ==> s[i] != s[j]
  }

  /** No page lies ahead twice. */
  lemma {:induction false} TrailDistinct(provider: Provider, left: PagesLeft, queries: nat, c: Cursor)
    requires Paged(provider, left)
    ensures Distinct(Trail(provider, left, queries, c))
    decreases |Trail(provider, left, queries, c)|
  {
    var t := Trail(provider, left, queries, c);
    if t != [] {
      var next := Next(c, provider(c.query, c.token).next);
      TrailDistinct(provider, left, queries, next);
      var rest := Trail(provider, left, queries, next);
      assert t == [c] + rest;
      forall i, j | 0 <= i < j < |t| ensures t[i] != t[j] {
        if i == 0 {
          TrailAfter(provider, left, queries, next, j - 1);
        } else {
          assert rest[i - 1] != rest[j - 1];
        }
      }
    }
  }

  /** Each run gives up fewer places than one page holds. */
  lemma {:induction false} LostIsBounded(provider: Provider, left: PagesLeft, runs: seq<RunFact>)
    requires Paged(provider, left) && Chain(provider, left, runs)
    ensures |AllLost(runs)| <= 19 * |runs|
    decreases |runs|
  {
    hide Paged, Trail, Restart, PlacesOf, IngestAll;
    if runs != [] {
      assert IsRun(provider, left, runs[|runs| - 1]);
      LostIsBounded(provider, left, runs[..|runs| - 1]);
    }
  }
}
