/** The campaign state machine, read through the cache and written past it. */
module Campaigns {
  import opened Options
  import opened Cache
  import opened BaseService

  datatype Status = Draft | Active | Paused | Completed | Cancelled

  /** `data` is everything an update may change besides the status. */
  datatype Campaign = Campaign(status: Status, data: nat)

  function Transitions(s: Status): set<Status> {
    match s
    case Draft => {Active, Cancelled}
    case Active => {Paused, Completed, Cancelled}
    case Paused => {Active, Cancelled}
    case Completed => {}
    case Cancelled => {}
  }

  /**
   * `saved` is false when the database refuses the save. `Engine` is the scheduler completing, or the
   * distributor pausing, a campaign it read as active, with its own repository.
   */
  datatype Op =
    | Create(id: nat, data: nat)
    | Update(id: nat, status: Option<Status>, fields: Option<nat>, saved: bool)
    | Transition(id: nat, target: Status, saved: bool)
    | Retry(id: nat, blocked: bool, requeued: nat)
    | Delete(id: nat)
    | Engine(id: nat, done: bool)
    | Invalidate(id: nat)

  datatype Reply = NotFound | Refused | SaveFailed | Invalidated | Done(row: Campaign)

  type State = Store<Campaign>

  /** The operations that go through `findById`. */
  predicate Reads(op: Op) {
    op.Update? || op.Transition? || op.Retry? || op.Delete?
  }

  /** `Object.assign` on the shared cached object. */
  function Mutated(s: State, id: nat, row: Campaign): State {
    var slot := Find(s.cache, id);
    if slot.Some? then s.(cache := Put(s.cache, slot.value.(data := row))) else s
  }

  /** The cached object is changed first, then saved. */
  function Save(s: State, id: nat, row: Campaign, saved: bool): (State, Reply) {
    if saved then (Rewritten(Mutated(s, id, row), id, Some(row)), Done(row)) else (Mutated(s, id, row), SaveFailed)
  }

  /** UPDATE campaigns SET status: no row, no effect. */
  function SetStatus(s: State, id: nat, status: Status): State {
    if id in s.table then Rewritten(s, id, Some(s.table[id].(status := status))) else s
  }

  function EngineStatus(done: bool): Status {
    if done then Completed else Paused
  }

  function Step(s: State, op: Op, now: nat): (State, Reply) {
    match op
    case Create(id, data) =>
      if id in s.table then (s, SaveFailed)
      else (Rewritten(s, id, Some(Campaign(Draft, data))), Done(Campaign(Draft, data)))
    case Engine(id, done) =>
      if id in s.table && s.table[id].status == Active then
        (SetStatus(s, id, EngineStatus(done)), Done(s.table[id]))
      else (s, Refused)
    case Invalidate(id) => (Forget(s, id), Invalidated)
    case _ =>
      var seen := Served(s, op.id, now);
      if seen.None? then (AfterRead(s, op.id, now), NotFound) else OnSeen(AfterRead(s, op.id, now), op, seen.value)
  }

  /** What an update or a transition makes of the campaign it found; None when the edge is refused. */
  function Edited(op: Op, seen: Campaign): Option<Campaign>
    requires op.Update? || op.Transition?
  {
    match op
    case Update(_, status, fields, _) =>
      if status.Some? && status.value != seen.status && status.value !in Transitions(seen.status) then None
      else Some(Campaign(OrElseOf(status, seen.status), OrElseOf(fields, seen.data)))
    case Transition(_, target, _) =>
      if target !in Transitions(seen.status) then None else Some(seen.(status := target))
  }

  /** A retry that reopens the campaign it found. */
  predicate Reopens(op: Op, seen: Campaign) {
    op.Retry? && !op.blocked && op.requeued > 0 && seen.status == Completed
  }

  /** The operation on the campaign that `findById` returned. */
  function OnSeen(read: State, op: Op, seen: Campaign): (State, Reply)
    requires Reads(op)
  {
    match op
    case Retry(id, blocked, requeued) =>
      if blocked then (read, Refused)
      else if Reopens(op, seen) then (SetStatus(read, id, Active), Done(seen.(status := Active)))
      else (read, Done(seen))
    case Delete(id) =>
      if seen.status == Active then (read, Refused)
      else (Forget(Rewritten(read, id, None), id), Done(seen))
    case _ =>
      var row := Edited(op, seen);
      if row.None? then (read, Refused) else Save(read, op.id, row.value, op.saved)
  }

  function OrElseOf<T>(a: Option<T>, b: T): T {
    if a.Some? then a.value else b
  }

  // ---------------------------------------------------------------- copy and row

  /**
   * The operation leaves a live copy that differs from the row: a retry that reopened the campaign, a
   * refused save that changed the copy, or an engine write that a copy did not see.
   */
  predicate Bypasses(s: State, op: Op, now: nat) {
    var copy, row, seen := Live(s, op.id, now), Lookup(s.table, op.id), Served(s, op.id, now);
    match op
    case Retry(_, _, _) => seen.Some? && Reopens(op, seen.value)
    case Engine(_, done) =>
      row.Some? && row.value.status == Active && copy.Some? && copy.value != row.value.(status := EngineStatus(done))
    case Create(_, _) => false
    case Delete(_) => false
    case Invalidate(_) => false
    case _ => seen.Some? && !op.saved && Edited(op, seen.value).Some? && Edited(op, seen.value) != row
  }

  /**
   * The operation leaves copy and row equal, or no copy: it found no live copy, dropped it, saved it, or
   * wrote what the copy says.
   */
  predicate Settles(s: State, op: Op, now: nat) {
    var copy, row := Live(s, op.id, now), Lookup(s.table, op.id);
    && !Bypasses(s, op, now)
    && (|| copy.None?
        || op.Invalidate?
        || (op.Delete? && copy.value.status != Active)
        || ((op.Update? || op.Transition?) && Edited(op, copy.value).Some?)
        || (op.Engine? && row.Some? && row.value.status == Active))
  }

  /** A cached campaign has a row. */
  ghost predicate Backed(s: State, id: nat, now: nat) {
    Live(s, id, now).Some? ==> id in s.table
  }

  /** The stored campaign before and after: the edges the status table allows, and the one it does not. */
  predicate Legal(before: Option<Campaign>, after: Option<Campaign>, op: Op) {
    match (before, after)
    case (None, None) => true
    case (None, Some(c)) => op.Create? && c.status == Draft
    case (Some(c), None) => op.Delete? && c.status != Active
    case (Some(c), Some(c')) =>
      || c' == c
      || (op.Update? && c'.status == c.status)
      || c'.status in Transitions(c.status)
      || (Reopens(op, c) && c' == c.(status := Active))
  }

  // ---------------------------------------------------------------- one operation

  lemma MutateFacts(s: State, id: nat, row: Campaign, now: nat)
    requires Sane(s, now) && Live(s, id, now).Some?
    ensures Sane(Mutated(s, id, row), now) && Live(Mutated(s, id, row), id, now) == Some(row)
    ensures Mutated(s, id, row).table == s.table && OnlyAbout(s, Mutated(s, id, row), id)
  {
    hide Ids, Put, Find;
    FindIn(s.cache, id);
    var x := Find(s.cache, id).value.(data := row);
    PutSize(s.cache, x);
    PutMembers(s.cache, x);
    FindPut(s.cache, x, id);
    forall i | i != id ensures Unrelated(s, Mutated(s, id, row), i) {
      FindPut(s.cache, x, i);
    }
  }

  lemma SaveFacts(s: State, id: nat, row: Campaign, saved: bool, now: nat)
    requires Sane(s, now) && Live(s, id, now).Some?
    ensures var s' := Save(s, id, row, saved).0;
            && Sane(s', now) && OnlyAbout(s, s', id) && Live(s', id, now) == Some(row)
            && Lookup(s'.table, id) == if saved then Some(row) else Lookup(s.table, id)
  {
    hide Mutated, Find, Ids;
    MutateFacts(s, id, row, now);
    var m := Mutated(s, id, row);
    RewriteFacts(m, id, Some(row));
    AboutTrans(s, m, Rewritten(m, id, Some(row)), id);
  }

  lemma StatusFacts(s: State, id: nat, status: Status, now: nat)
    requires Sane(s, now)
    ensures Sane(SetStatus(s, id, status), now) && OnlyAbout(s, SetStatus(s, id, status), id)
  {
    hide Sane, Find;
    SelfAbout(s, id);
    if id in s.table {
      RewriteFacts(s, id, Some(s.table[id].(status := status)));
      SaneRewritten(s, id, Some(s.table[id].(status := status)), now);
    }
  }

  lemma SelfAbout(s: State, id: nat)
    ensures OnlyAbout(s, s, id)
  {
  }

  lemma SaneRewritten(s: State, id: nat, row: Option<Campaign>, now: nat)
    requires Sane(s, now)
    ensures Sane(Rewritten(s, id, row), now)
  {
  }

  /** What an operation does to the copy and the row it found, and to nothing else. */
  lemma OnSeenFacts(read: State, op: Op, seen: Campaign, now: nat)
    requires Reads(op) && Sane(read, now) && Live(read, op.id, now) == Some(seen)
    ensures var s' := OnSeen(read, op, seen).0; var id := op.id;
            && Sane(s', now) && OnlyAbout(read, s', id)
            && (op.Update? || op.Transition? ==>
                  if Edited(op, seen).None? then s' == read
                  else Live(s', id, now) == Edited(op, seen)
                       && Lookup(s'.table, id) == if op.saved then Edited(op, seen) else Lookup(read.table, id))
            && (op.Retry? ==>
                  if Reopens(op, seen) then Live(s', id, now) == Some(seen) && s' == SetStatus(read, id, Active)
                  else s' == read)
            && (op.Delete? ==>
                  if seen.status == Active then s' == read
                  else Live(s', id, now) == None && Lookup(s'.table, id) == None)
  {
    hide Mutated, Find, Ids, Save, Without, Sane, OnlyAbout, Edited;
    var id := op.id;
    SelfAbout(read, id);
    if op.Retry? {
      StatusFacts(read, id, Active, now);
    } else if op.Delete? {
      RewriteFacts(read, id, None);
      SaneRewritten(read, id, None, now);
      ForgetFacts(Rewritten(read, id, None), id, now);
      AboutTrans(read, Rewritten(read, id, None), Forget(Rewritten(read, id, None), id), id);
    } else if Edited(op, seen).Some? {
      SaveFacts(read, id, Edited(op, seen).value, op.saved, now);
    }
  }

  /** Fresh copy or not, an operation keeps the cache in bounds and touches no other campaign. */
  lemma StepIsLocal(s: State, op: Op, now: nat)
    requires Sane(s, now)
    ensures Sane(Step(s, op, now).0, now) && OnlyAbout(s, Step(s, op, now).0, op.id)
  {
    hide Find, OnSeen, OnlyAbout, AfterRead, Sane, SetStatus, Forget;
    SelfAbout(s, op.id);
    match op
    case Create(id, data) =>
      RewriteFacts(s, id, Some(Campaign(Draft, data)));
      SaneRewritten(s, id, Some(Campaign(Draft, data)), now);
    case Engine(id, done) =>
      StatusFacts(s, id, EngineStatus(done), now);
    case Invalidate(id) =>
      ForgetFacts(s, id, now);
    case _ =>
      var read := AfterRead(s, op.id, now);
      ReadFacts(s, op.id, now);
      if Served(s, op.id, now).Some? {
        OnSeenFacts(read, op, Served(s, op.id, now).value, now);
        AboutTrans(s, read, Step(s, op, now).0, op.id);
      }
  }

  /** Every operation makes copy and row differ, makes them agree, or changes nothing at all. */
  lemma StepSync(s: State, op: Op, now: nat)
    requires Sane(s, now) && Backed(s, op.id, now)
    ensures var s' := Step(s, op, now).0;
            && Backed(s', op.id, now)
            && (Bypasses(s, op, now) ==> !Fresh(s', op.id, now))
            && (Settles(s, op, now) ==> Fresh(s', op.id, now))
            && (!Bypasses(s, op, now) && !Settles(s, op, now) ==> s' == s)
  {
    hide Find, OnSeen, Sane, OnlyAbout, Edited, Forget;
    if Reads(op) {
      ReadFacts(s, op.id, now);
      if Served(s, op.id, now).Some? {
        OnSeenFacts(AfterRead(s, op.id, now), op, Served(s, op.id, now).value, now);
      }
    } else if op.Invalidate? {
      ForgetFacts(s, op.id, now);
    }
  }

  /**
   * With a fresh copy of its campaign, every operation moves the stored status along an allowed edge,
   * deletes only a campaign that is not stored as active, and leaves the copy fresh exactly when it does
   * not bypass the cache.
   */
  lemma StepIsLegal(s: State, op: Op, now: nat)
    requires Sane(s, now) && Fresh(s, op.id, now)
    ensures var s' := Step(s, op, now).0;
            && Legal(Lookup(s.table, op.id), Lookup(s'.table, op.id), op)
            && (Fresh(s', op.id, now) <==> !Bypasses(s, op, now))
  {
    hide Find, OnSeen, OnlyAbout, AfterRead, Sane, Bypasses, Settles, Forget;
    StepSync(s, op, now);
    if Reads(op) {
      ReadFacts(s, op.id, now);
      if Served(s, op.id, now).Some? {
        OnSeenFacts(AfterRead(s, op.id, now), op, Served(s, op.id, now).value, now);
      }
    } else {
      StepUnread(s, op, now);
    }
  }

  /** The operations that do not look at the copy are legal whatever it says. */
  lemma StepUnread(s: State, op: Op, now: nat)
    requires !Reads(op)
    ensures Legal(Lookup(s.table, op.id), Lookup(Step(s, op, now).0.table, op.id), op)
  {
    hide Without;
  }

  // ---------------------------------------------------------------- what is written and answered

  /** The seven edges of the status table. */
  predicate Edge(from: Status, to: Status) {
    || (from == Draft && (to == Active || to == Cancelled))
    || (from == Active && (to == Paused || to == Completed || to == Cancelled))
    || (from == Paused && (to == Active || to == Cancelled))
  }

  /** An update keeps what it does not name, changes the status along an edge only, and writes once saved. */
  lemma UpdateWrites(s: State, id: nat, status: Option<Status>, fields: Option<nat>, saved: bool, now: nat)
    ensures var (s', reply) := Step(s, Op.Update(id, status, fields, saved), now); var seen := Served(s, id, now);
            && (seen.None? ==> reply == NotFound && s'.table == s.table)
            && (seen.Some? ==>
                  var c := seen.value;
                  var refused := status.Some? && status.value != c.status && !Edge(c.status, status.value);
                  && (reply == Refused <==> refused)
                  && (reply == SaveFailed <==> !refused && !saved)
                  && (refused || !saved ==> s'.table == s.table)
                  && (!refused && saved ==>
                        reply.Done? && s'.table == s.table[id := reply.row]
                        && (status.Some? ==> reply.row.status == status.value)
                        && (status.None? ==> reply.row.status == c.status)
                        && (fields.Some? ==> reply.row.data == fields.value)
                        && (fields.None? ==> reply.row.data == c.data)))
  {
    hide Find, Put, AfterRead;
    assert AfterRead(s, id, now).table == s.table by { ReadKeepsTable(s, id, now); }
  }

  lemma ReadKeepsTable(s: State, id: nat, now: nat)
    ensures AfterRead(s, id, now).table == s.table
  {
  }

  /** A transition needs an edge, changes nothing but the status, and writes once saved. */
  lemma TransitionWrites(s: State, id: nat, target: Status, saved: bool, now: nat)
    ensures var (s', reply) := Step(s, Transition(id, target, saved), now); var seen := Served(s, id, now);
            && (seen.None? ==> reply == NotFound && s'.table == s.table)
            && (seen.Some? ==>
                  var c := seen.value;
                  if !Edge(c.status, target) then reply == Refused && s'.table == s.table
                  else if !saved then reply == SaveFailed && s'.table == s.table
                  else reply == Done(Campaign(target, c.data)) && s'.table == s.table[id := Campaign(target, c.data)])
  {
    hide Find, Put, AfterRead;
    ReadKeepsTable(s, id, now);
  }

  /** A retry reopens a completed campaign in the table, keeping the rest of its row, when somebody was requeued. */
  lemma RetryWrites(s: State, id: nat, blocked: bool, requeued: nat, now: nat)
    ensures var (s', reply) := Step(s, Retry(id, blocked, requeued), now); var seen := Served(s, id, now);
            && (seen.None? ==> reply == NotFound) && (seen.Some? && blocked ==> reply == Refused)
            && var reopens := seen.Some? && !blocked && requeued > 0 && seen.value.status == Completed;
               && (seen.Some? && !blocked ==>
                     reply == Done(Campaign(if reopens then Active else seen.value.status, seen.value.data)))
               && s'.table == if reopens && id in s.table
                              then s.table[id := Campaign(Active, s.table[id].data)] else s.table
  {
    hide Find, Put, AfterRead;
    ReadKeepsTable(s, id, now);
  }

  /** A delete is refused for a campaign read as active, and otherwise takes the row and the copy. */
  lemma DeleteWrites(s: State, id: nat, now: nat)
    ensures var (s', reply) := Step(s, Delete(id), now); var seen := Served(s, id, now);
            && (seen.None? ==> reply == NotFound && s'.table == s.table)
            && (seen.Some? && seen.value.status == Active ==> reply == Refused && s'.table == s.table)
            && (seen.Some? && seen.value.status != Active ==> reply == Done(seen.value) && s'.table == s.table - {id})
  {
    hide Find, Put, AfterRead, Without;
    ReadKeepsTable(s, id, now);
  }

  /** A campaign is created as a draft; the engine completes or pauses one that is stored as active, and no other. */
  lemma OtherWrites(s: State, id: nat, data: nat, done: bool, now: nat)
    ensures var (s', reply) := Step(s, Create(id, data), now);
            if id in s.table then s' == s
            else reply == Done(Campaign(Draft, data)) && s'.table == s.table[id := Campaign(Draft, data)]
    ensures var s' := Step(s, Engine(id, done), now).0;
            && s'.cache == s.cache
            && s'.table == if id in s.table && s.table[id].status == Active
                           then s.table[id := Campaign(if done then Completed else Paused, s.table[id].data)]
                           else s.table
    ensures Step(s, Op.Invalidate(id), now).0.table == s.table
  {
    hide Without;
  }

  // ---------------------------------------------------------------- the service

  class CampaignsService {
    const base: Service<Campaign>

    constructor (base: Service<Campaign>)
      ensures this.base == base
    {
      this.base := base;
    }

    method SaveCached(id: nat, row: Campaign, saved: bool) returns (reply: Reply)
      modifies base
      ensures (base.State(), reply) == Save(old(base.State()), id, row, saved)
    {
      var slot := Find(base.cache, id);
      if slot.Some? {
        base.cache := Put(base.cache, slot.value.(data := row));
      }
      if !saved {
        return SaveFailed;
      }
      base.table := base.table[id := row];
      return Done(row);
    }

    method UpdateCampaign(id: nat, status: Option<Status>, fields: Option<nat>, saved: bool, now: nat)
      returns (reply: Reply)
      modifies base
      ensures (base.State(), reply) == Step(old(base.State()), Op.Update(id, status, fields, saved), now)
    {
      hide AfterRead, Mutated, Find, Put;
      var seen := base.FindById(id, now);
      if seen.None? {
        return NotFound;
      }
      var campaign := seen.value;
      if status.Some? && status.value != campaign.status && status.value !in Transitions(campaign.status) {
        return Refused;
      }
      campaign := Campaign(OrElseOf(status, campaign.status), OrElseOf(fields, campaign.data));
      reply := SaveCached(id, campaign, saved);
    }

    /** Activate and pause. */
    method TransitionTo(id: nat, target: Status, saved: bool, now: nat) returns (reply: Reply)
      modifies base
      ensures (base.State(), reply) == Step(old(base.State()), Transition(id, target, saved), now)
    {
      hide AfterRead, Mutated, Find, Put;
      var seen := base.FindById(id, now);
      if seen.None? {
        return NotFound;
      }
      if target !in Transitions(seen.value.status) {
        return Refused;
      }
      reply := SaveCached(id, seen.value.(status := target), saved);
    }

    method RetryFailed(id: nat, blocked: bool, requeued: nat, now: nat) returns (reply: Reply)
      modifies base
      ensures (base.State(), reply) == Step(old(base.State()), Retry(id, blocked, requeued), now)
    {
      hide AfterRead, Find, Put;
      var seen := base.FindById(id, now);
      if seen.None? {
        return NotFound;
      }
      if blocked {
        return Refused;
      }
      if requeued == 0 || seen.value.status != Completed {
        return Done(seen.value);
      }
      if id in base.table {
        base.table := base.table[id := base.table[id].(status := Active)];
      }
      return Done(seen.value.(status := Active));
    }

    method DeleteCampaign(id: nat, now: nat) returns (reply: Reply)
      modifies base
      ensures (base.State(), reply) == Step(old(base.State()), Delete(id), now)
    {
      hide AfterRead, Find, Put, Without;
      var seen := base.FindById(id, now);
      if seen.None? {
        return NotFound;
      }
      if seen.value.status == Active {
        return Refused;
      }
      base.table := base.table - {id};
      base.Invalidate(id);
      return Done(seen.value);
    }
  }
}
