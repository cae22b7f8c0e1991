/** Runs of campaign operations, each at its own time, and what the writes that bypass the cache cost. */
module CampaignRuns {
  import opened Options
  import opened Cache
  import opened BaseService
  import opened Campaigns

  datatype Event = Event(op: Op, time: nat)

  function Play(s: State, events: seq<Event>, n: nat): State
    requires n <= |events|
  {
    if n == 0 then s
    else
      var e := events[n - 1];
      Step(Play(s, events, n - 1), e.op, e.time).0
  }

  function Clock(events: seq<Event>, start: nat, n: nat): nat
    requires n <= |events|
  {
    if n == 0 then start else events[n - 1].time
  }

  predicate Timed(events: seq<Event>, start: nat) {
    && (forall i :: 0 <= i < |events| ==> start <= events[i].time)
    && (forall i, j :: 0 <= i < j < |events| ==> events[i].time <= events[j].time)
  }

  /** A run from a cache that is within bounds and a true copy of the table. */
  ghost predicate IsRun(s: State, events: seq<Event>, start: nat) {
    Sane(s, start) && Coherent(s, start) && Timed(events, start)
  }

  lemma {:induction false} RunIsSane(s: State, events: seq<Event>, start: nat, n: nat)
    requires Sane(s, start) && Timed(events, start) && n <= |events|
    ensures Sane(Play(s, events, n), Clock(events, start, n))
  {
    hide Sane, Step;
    if n > 0 {
      RunIsSane(s, events, start, n - 1);
      var before := Play(s, events, n - 1);
      LaterIsFresh(before, Clock(events, start, n - 1), events[n - 1].time);
      StepIsLocal(before, events[n - 1].op, events[n - 1].time);
    }
  }

  /** The state event `n` finds is within bounds at that event's time. */
  lemma SaneAtEvent(s: State, events: seq<Event>, start: nat, n: nat)
    requires Sane(s, start) && Timed(events, start) && n < |events|
    ensures Sane(Play(s, events, n), events[n].time)
  {
    hide Sane, Step;
    RunIsSane(s, events, start, n);
    LaterIsFresh(Play(s, events, n), Clock(events, start, n), events[n].time);
  }

  // ---------------------------------------------------------------- when a copy is stale

  /** Some write bypassed the cached copy of `id`, and no later event settled it. */
  predicate LeftBehind(s: State, events: seq<Event>, n: nat, id: nat)
    requires n <= |events|
  {
    if n == 0 then false
    else
      var e, before := events[n - 1], Play(s, events, n - 1);
      if e.op.id != id then LeftBehind(s, events, n - 1, id)
      else Bypasses(before, e.op, e.time)
           || (!Settles(before, e.op, e.time) && LeftBehind(s, events, n - 1, id))
  }

  /** As time passes a copy stays or expires. */
  lemma CopyLater(s: State, id: nat, now: nat, t: nat)
    requires now <= t
    ensures Live(s, id, t) == None || Live(s, id, t) == Live(s, id, now)
  {
  }

  lemma UnrelatedCopy(s: State, s': State, id: nat, i: nat, now: nat)
    requires OnlyAbout(s, s', id) && i != id
    ensures Lookup(s'.table, i) == Lookup(s.table, i)
    ensures Live(s', i, now) == None || Live(s', i, now) == Live(s, i, now)
  {
    hide Find;
    assert Unrelated(s, s', i);
  }

  /** In every run a copy differs from its row exactly while it is live and was left behind. */
  lemma {:induction false} StaleExactly(s: State, events: seq<Event>, start: nat, n: nat, id: nat, now: nat)
    requires IsRun(s, events, start) && n <= |events| && Clock(events, start, n) <= now
    ensures Backed(Play(s, events, n), id, now)
    ensures Fresh(Play(s, events, n), id, now) <==>
              Live(Play(s, events, n), id, now).None? || !LeftBehind(s, events, n, id)
    decreases n
  {
    hide Sane, Step, Live, Bypasses, Settles, OnlyAbout;
    if n == 0 {
      assert Fresh(s, id, start);
      LaterIsFresh(s, start, now);
    } else {
      var e := events[n - 1];
      var before, after := Play(s, events, n - 1), Play(s, events, n);
      SaneAtEvent(s, events, start, n - 1);
      StaleExactly(s, events, start, n - 1, id, now);
      if e.op.id != id {
        StepIsLocal(before, e.op, e.time);
        UnrelatedCopy(before, after, e.op.id, id, now);
      } else {
        StaleExactly(s, events, start, n - 1, id, e.time);
        StepSync(before, e.op, e.time);
        CopyLater(after, id, e.time, now);
        LaterIsFresh(after, e.time, now);
      }
    }
  }

  // ---------------------------------------------------------------- legal runs

  /** Event `n`, if it goes through the cache, finds no live copy that was left behind. */
  predicate InTouch(s: State, events: seq<Event>, n: nat)
    requires n < |events|
  {
    var e := events[n];
    Reads(e.op) ==> Live(Play(s, events, n), e.op.id, e.time).None? || !LeftBehind(s, events, n, e.op.id)
  }

  /** Whatever came before it, an event in touch with its row is legal, and touches no other campaign. */
  lemma RunsAreLegal(s: State, events: seq<Event>, start: nat, n: nat)
    requires IsRun(s, events, start) && n < |events| && InTouch(s, events, n)
    ensures var e := events[n]; var before := Play(s, events, n); var after := Play(s, events, n + 1);
            && Legal(Lookup(before.table, e.op.id), Lookup(after.table, e.op.id), e.op)
            && OnlyAbout(before, after, e.op.id)
  {
    hide Sane, Step, Legal, Live, LeftBehind, Fresh, OnlyAbout;
    var e, before := events[n], Play(s, events, n);
    SaneAtEvent(s, events, start, n);
    StepIsLocal(before, e.op, e.time);
    if Reads(e.op) {
      StaleExactly(s, events, start, n, e.op.id, e.time);
      StepIsLegal(before, e.op, e.time);
    } else {
      StepUnread(before, e.op, e.time);
    }
  }

  /** Event `i` bypassed the copy of `id`, and nobody invalidated it before event `n`. */
  predicate Pending(s: State, events: seq<Event>, i: nat, n: nat, id: nat)
    requires i < n <= |events|
  {
    && events[i].op.id == id && Bypasses(Play(s, events, i), events[i].op, events[i].time)
    && forall k :: i < k < n ==> events[k].op != Invalidate(id)
  }

  /** A copy left behind goes back to a bypassing write, and expires within a minute of it. */
  lemma {:induction false} LeftSince(s: State, events: seq<Event>, start: nat, n: nat, id: nat) returns (i: nat)
    requires IsRun(s, events, start) && n <= |events| && LeftBehind(s, events, n, id)
    ensures i < n && Pending(s, events, i, n, id)
    ensures var slot := Find(Play(s, events, n).cache, id);
            slot.Some? ==> slot.value.expires <= events[i].time + CACHE_TTL
    decreases n
  {
    hide Step, Live, Bypasses, OnlyAbout, Find, Ids, Distinct;
    var e := events[n - 1];
    var before, after := Play(s, events, n - 1), Play(s, events, n);
    SaneAtEvent(s, events, start, n - 1);
    StepIsLocal(before, e.op, e.time);
    if e.op.id == id && Bypasses(before, e.op, e.time) {
      i := n - 1;
      FindIn(after.cache, id);
    } else {
      i := LeftSince(s, events, start, n - 1, id);
      if e.op.id == id {
        StaleExactly(s, events, start, n - 1, id, e.time);
        StepSync(before, e.op, e.time);
      } else {
        assert Unrelated(before, after, id) by { UnrelatedAt(before, after, e.op.id, id); }
      }
    }
  }

  lemma UnrelatedAt(s: State, s': State, id: nat, i: nat)
    requires OnlyAbout(s, s', id) && i != id
    ensures Unrelated(s, s', i)
  {
  }

  /**
   * It is enough that after a bypassing write nobody touches that campaign for a minute, or somebody
   * invalidates it first.
   */
  lemma SpacedIsInTouch(s: State, events: seq<Event>, start: nat, n: nat)
    requires IsRun(s, events, start) && n < |events|
    requires forall i :: 0 <= i < n && Pending(s, events, i, n, events[n].op.id) ==>
               events[i].time + CACHE_TTL <= events[n].time
    ensures InTouch(s, events, n)
  {
    hide LeftBehind, Pending, Play, Find;
    if LeftBehind(s, events, n, events[n].op.id) {
      var i := LeftSince(s, events, start, n, events[n].op.id);
    }
  }

  lemma NotInvalidated(s: State, events: seq<Event>, i: nat, n: nat, id: nat)
    requires i < n <= |events| && Pending(s, events, i, n, id)
    ensures events[i].op.id == id && Bypasses(Play(s, events, i), events[i].op, events[i].time)
    ensures i + 1 < n ==> events[i + 1].op != Invalidate(id)
  {
  }

  /** An `invalidate` right after each bypassing write makes every event legal. */
  lemma InvalidateProtects(s: State, events: seq<Event>, start: nat, n: nat)
    requires IsRun(s, events, start) && n < |events|
    requires forall i :: 0 <= i < n && Bypasses(Play(s, events, i), events[i].op, events[i].time) ==>
               events[i + 1].op == Invalidate(events[i].op.id)
    ensures InTouch(s, events, n)
  {
    hide LeftBehind, Play, Bypasses, Live;
    if Reads(events[n].op) {
      var id := events[n].op.id;
      forall i | 0 <= i < n ensures !Pending(s, events, i, n, id) {
        if Pending(s, events, i, n, id) {
          NotInvalidated(s, events, i, n, id);
        }
      }
      SpacedIsInTouch(s, events, start, n);
    }
  }

  // ---------------------------------------------------------------- no active campaign is deleted

  /**
   * In every run an active campaign disappears exactly when a delete finds a live copy of it with
   * another status.
   */
  lemma ActiveDeletedExactly(s: State, events: seq<Event>, start: nat, n: nat, id: nat)
    requires Sane(s, start) && Timed(events, start) && n < |events|
    requires Lookup(Play(s, events, n).table, id).Some? && Play(s, events, n).table[id].status == Active
    ensures var copy := Live(Play(s, events, n), id, events[n].time);
            id !in Play(s, events, n + 1).table <==>
              events[n].op == Delete(id) && copy.Some? && copy.value.status != Active
  {
    hide Sane, Live, OnlyAbout, Find, Put, Without;
    var e, before := events[n], Play(s, events, n);
    SaneAtEvent(s, events, start, n);
    if e.op.id != id {
      StepIsLocal(before, e.op, e.time);
      UnrelatedCopy(before, Play(s, events, n + 1), e.op.id, id, e.time);
    } else {
      DeleteExactly(before, e.op, e.time);
    }
  }

  lemma DeleteExactly(s: State, op: Op, now: nat)
    requires Sane(s, now) && op.id in s.table && s.table[op.id].status == Active
    ensures var copy := Live(s, op.id, now);
            op.id !in Step(s, op, now).0.table <==> op.Delete? && copy.Some? && copy.value.status != Active
  {
    hide Sane, Live, OnlyAbout, Find, Put, Without, Forget, AfterRead, OnSeen, Edited;
    if Reads(op) {
      ReadFacts(s, op.id, now);
      OnSeenFacts(AfterRead(s, op.id, now), op, Served(s, op.id, now).value, now);
    } else {
      StepUnread(s, op, now);
    }
  }

  /** So none is, where the delete is in touch with the row. */
  lemma ActiveIsNeverDeleted(s: State, events: seq<Event>, start: nat, n: nat, id: nat)
    requires IsRun(s, events, start) && n < |events| && InTouch(s, events, n)
    requires id in Play(s, events, n).table && Play(s, events, n).table[id].status == Active
    ensures id in Play(s, events, n + 1).table
  {
    hide Sane, Step, Live, OnlyAbout, Play;
    RunsAreLegal(s, events, start, n);
    if events[n].op.id != id {
      UnrelatedCopy(Play(s, events, n), Play(s, events, n + 1), events[n].op.id, id, 0);
    }
  }

  // ---------------------------------------------------------------- cancelled and completed

  /** A campaign stored with this status has no live copy with another. */
  predicate Agrees(s: State, id: nat, status: Status, now: nat) {
    id in s.table && s.table[id].status == status && Live(s, id, now).Some? ==> Live(s, id, now).value.status == status
  }

  /** The scheduler completes a campaign behind a live copy that says otherwise. */
  predicate CompletesBehind(s: State, op: Op, now: nat) {
    && op.Engine? && op.done && op.id in s.table && s.table[op.id].status == Active
    && Live(s, op.id, now).Some? && Live(s, op.id, now).value.status != Completed
  }

  lemma StatusStep(s: State, op: Op, now: nat, status: Status)
    requires Sane(s, now) && Agrees(s, op.id, status, now)
    requires status == Cancelled || (status == Completed && !CompletesBehind(s, op, now))
    ensures var s' := Step(s, op, now).0;
            && Agrees(s', op.id, status, now)
            && (op.id in s.table && s.table[op.id].status == status && !op.Delete?
                && (status == Completed && op.Retry? ==> op.blocked || op.requeued == 0) ==>
                  op.id in s'.table && s'.table[op.id].status == status)
  {
    hide Sane, Find, OnlyAbout, OnSeen, AfterRead, Forget;
    if Reads(op) {
      ReadFacts(s, op.id, now);
      if Served(s, op.id, now).Some? {
        OnSeenFacts(AfterRead(s, op.id, now), op, Served(s, op.id, now).value, now);
      }
    } else if op.Invalidate? {
      ForgetFacts(s, op.id, now);
    }
  }

  lemma AgreesLater(s: State, id: nat, status: Status, now: nat, t: nat)
    requires now <= t && Agrees(s, id, status, now)
    ensures Agrees(s, id, status, t)
  {
    hide Live;
    CopyLater(s, id, now, t);
  }

  /** Over any run without such completions of it, a terminal campaign and its copy agree. */
  lemma {:induction false} StatusAgrees(s: State, events: seq<Event>, start: nat, n: nat, id: nat, status: Status)
    requires IsRun(s, events, start) && n <= |events|
    requires status == Cancelled || status == Completed
    requires status == Completed ==> forall i :: 0 <= i < n && events[i].op.id == id ==>
               !CompletesBehind(Play(s, events, i), events[i].op, events[i].time)
    ensures Agrees(Play(s, events, n), id, status, Clock(events, start, n))
    decreases n
  {
    hide Sane, Step, OnlyAbout, Live, CompletesBehind;
    if n == 0 {
      assert Fresh(s, id, start);
    } else {
      var e := events[n - 1];
      var before := Play(s, events, n - 1);
      StatusAgrees(s, events, start, n - 1, id, status);
      AgreesLater(before, id, status, Clock(events, start, n - 1), e.time);
      SaneAtEvent(s, events, start, n - 1);
      if e.op.id == id {
        StatusStep(before, e.op, e.time, status);
      } else {
        StepIsLocal(before, e.op, e.time);
        UnrelatedCopy(before, Play(s, events, n), e.op.id, id, e.time);
      }
    }
  }

  /** A terminal status stays as long as nothing named here happens. */
  lemma {:induction false} StatusStays(s: State, events: seq<Event>, start: nat, i: nat, j: nat, id: nat,
                                       status: Status)
    requires IsRun(s, events, start) && i <= j <= |events|
    requires status == Cancelled || status == Completed
    requires status == Completed ==> forall n :: 0 <= n < j && events[n].op.id == id ==>
               !CompletesBehind(Play(s, events, n), events[n].op, events[n].time)
    requires forall n :: i <= n < j && events[n].op.id == id ==>
               !events[n].op.Delete?
               && (status == Completed && events[n].op.Retry? ==> events[n].op.blocked || events[n].op.requeued == 0)
    requires id in Play(s, events, i).table && Play(s, events, i).table[id].status == status
    ensures id in Play(s, events, j).table && Play(s, events, j).table[id].status == status
    decreases j
  {
    hide Sane, Step, OnlyAbout, Live, CompletesBehind, Agrees;
    if i < j {
      StatusStays(s, events, start, i, j - 1, id, status);
      var e, before := events[j - 1], Play(s, events, j - 1);
      SaneAtEvent(s, events, start, j - 1);
      if e.op.id == id {
        StatusAgrees(s, events, start, j - 1, id, status);
        AgreesLater(before, id, status, Clock(events, start, j - 1), e.time);
        StatusStep(before, e.op, e.time, status);
      } else {
        StepIsLocal(before, e.op, e.time);
        UnrelatedCopy(before, Play(s, events, j), e.op.id, id, e.time);
      }
    }
  }

  /**
   * Over every run, bypassing writes and refused saves included, a cancelled campaign stays cancelled
   * until it is deleted.
   */
  lemma CancelledIsAbsorbing(s: State, events: seq<Event>, start: nat, i: nat, j: nat, id: nat)
    requires IsRun(s, events, start) && i <= j <= |events|
    requires id in Play(s, events, i).table && Play(s, events, i).table[id].status == Cancelled
    requires forall n :: i <= n < j && events[n].op.id == id ==> !events[n].op.Delete?
    ensures id in Play(s, events, j).table && Play(s, events, j).table[id].status == Cancelled
  {
    hide Sane, Play, CompletesBehind;
    StatusStays(s, events, start, i, j, id, Cancelled);
  }

  /**
   * A completed campaign leaves that status only through a retry that requeues somebody, or a delete,
   * over every run in which the scheduler has not completed it behind a live copy.
   */
  lemma CompletedIsReopened(s: State, events: seq<Event>, start: nat, i: nat, j: nat, id: nat)
    requires IsRun(s, events, start) && i <= j <= |events|
    requires id in Play(s, events, i).table && Play(s, events, i).table[id].status == Completed
    requires forall n :: 0 <= n < j && events[n].op.id == id ==>
               !CompletesBehind(Play(s, events, n), events[n].op, events[n].time)
    requires forall n :: i <= n < j && events[n].op.id == id ==>
               !events[n].op.Delete? && (events[n].op.Retry? ==> events[n].op.blocked || events[n].op.requeued == 0)
    ensures id in Play(s, events, j).table && Play(s, events, j).table[id].status == Completed
  {
    hide Sane, Play, CompletesBehind;
    StatusStays(s, events, start, i, j, id, Completed);
  }

  /**
   * In every run, however it got there, an event takes a completed campaign out of that status exactly
   * when it is a delete or a reopening retry that the copy lets through, or a saved edit of a live copy
   * that still says something else.
   */
  lemma CompletedLeftExactly(s: State, events: seq<Event>, start: nat, n: nat, id: nat)
    requires Sane(s, start) && Timed(events, start) && n < |events|
    requires id in Play(s, events, n).table && Play(s, events, n).table[id].status == Completed
    ensures var e := events[n]; var copy := Live(Play(s, events, n), id, e.time); var after := Play(s, events, n + 1);
            !(id in after.table && after.table[id].status == Completed) <==>
              e.op.id == id &&
              (|| (e.op.Delete? && (copy.Some? ==> copy.value.status != Active))
               || (e.op.Retry? && !e.op.blocked && e.op.requeued > 0 && (copy.Some? ==> copy.value.status == Completed))
               || (SavedEdit(e.op) && copy.Some? && Changes(e.op, copy.value)))
  {
    hide Sane, Live, OnlyAbout, Step;
    var e, before := events[n], Play(s, events, n);
    SaneAtEvent(s, events, start, n);
    if e.op.id != id {
      StepIsLocal(before, e.op, e.time);
      UnrelatedCopy(before, Play(s, events, n + 1), e.op.id, id, e.time);
    } else {
      LeavesCompleted(before, e.op, e.time);
    }
  }

  predicate SavedEdit(op: Op) {
    (op.Update? || op.Transition?) && op.saved
  }

  /** An edit of this copy that the status table allows and that does not end in COMPLETED. */
  predicate Changes(op: Op, copy: Campaign)
    requires op.Update? || op.Transition?
  {
    Edited(op, copy).Some? && Edited(op, copy).value.status != Completed
  }

  lemma LeavesCompleted(s: State, op: Op, now: nat)
    requires Sane(s, now) && op.id in s.table && s.table[op.id].status == Completed
    ensures var copy := Live(s, op.id, now); var s' := Step(s, op, now).0;
            !(op.id in s'.table && s'.table[op.id].status == Completed) <==>
              (|| (op.Delete? && (copy.Some? ==> copy.value.status != Active))
               || (op.Retry? && !op.blocked && op.requeued > 0 && (copy.Some? ==> copy.value.status == Completed))
               || (SavedEdit(op) && copy.Some? && Changes(op, copy.value)))
  {
    hide Sane, Live, OnlyAbout, Find, Put, Without, AfterRead, OnSeen;
    if Reads(op) {
      ReadFacts(s, op.id, now);
      OnSeenFacts(AfterRead(s, op.id, now), op, Served(s, op.id, now).value, now);
    }
  }

  // ---------------------------------------------------------------- what the bypassing writes cost

  /**
   * Reopening a completed campaign leaves its completed copy in the cache: until that copy expires,
   * and only until then, the now active campaign can be deleted.
   */
  lemma ReopenedIsDeletable(s: State, id: nat, requeued: nat, now: nat, t: nat)
    requires Sane(s, now) && Fresh(s, id, now) && now <= t && requeued > 0
    requires id in s.table && s.table[id].status == Completed
    ensures var s' := Step(s, Retry(id, false, requeued), now).0;
            && id in s'.table && s'.table[id].status == Active
            && (Fresh(s', id, t) <==> Live(s', id, t).None?)
            && (id !in Step(s', Delete(id), t).0.table <==> Live(s', id, t).Some?)
  {
    hide Find, Without;
    ReadFacts(s, id, now);
    var s' := Step(s, Retry(id, false, requeued), now).0;
    CopyLater(s', id, now, t);
    StepIsLocal(s, Retry(id, false, requeued), now);
    LaterIsFresh(s', now, t);
    DeleteExactly(s', Delete(id), t);
  }

  /** The second route to the same loss: a pause whose save is refused leaves a paused copy behind. */
  lemma RefusedPauseIsDeletable(s: State, id: nat, now: nat, t: nat)
    requires Sane(s, now) && Fresh(s, id, now) && now <= t
    requires id in s.table && s.table[id].status == Active
    ensures var s' := Step(s, Transition(id, Paused, false), now).0;
            && s'.table == s.table
            && (id !in Step(s', Delete(id), t).0.table <==> Live(s', id, t).Some?)
  {
    hide Find, Without, Put, Mutated;
    FailedSaveLies(s, id, Paused, now);
    var s' := Step(s, Transition(id, Paused, false), now).0;
    StepIsLocal(s, Transition(id, Paused, false), now);
    LaterIsFresh(s', now, t);
    CopyLater(s', id, now, t);
    DeleteExactly(s', Delete(id), t);
  }

  /** The scheduler completes a campaign; pausing it afterwards undoes that exactly while a copy is live. */
  lemma PauseUndoesCompletion(s: State, id: nat, now: nat, t: nat)
    requires Sane(s, now) && Fresh(s, id, now) && now <= t && id in s.table && s.table[id].status == Active
    ensures var s' := Step(s, Engine(id, true), now).0; var paused := Step(s', Transition(id, Paused, true), t);
            && s'.table[id].status == Completed && id in paused.0.table
            && (paused.0.table[id].status == Paused <==> Live(s', id, t).Some?)
            && (paused.1 == Refused <==> Live(s', id, t).None?)
  {
    hide Find, Put;
    var s' := Step(s, Engine(id, true), now).0;
    CopyLater(s, id, now, t);
    assert Live(s', id, t) == Live(s, id, t);
  }

  /** A refused save leaves the new status in the shared copy although the row still has the old one. */
  lemma FailedSaveLies(s: State, id: nat, target: Status, now: nat)
    requires Sane(s, now) && Fresh(s, id, now) && id in s.table && target in Transitions(s.table[id].status)
    ensures var s' := Step(s, Transition(id, target, false), now).0;
            && s'.table == s.table && !Fresh(s', id, now)
            && Live(s', id, now) == Some(s.table[id].(status := target))
  {
    hide Find, Put, AfterRead;
    ReadFacts(s, id, now);
    MutateFacts(AfterRead(s, id, now), id, s.table[id].(status := target), now);
  }

  /** Not vacuous: a completed campaign, retried at 0 and deleted one millisecond later, is gone. */
  lemma DeletedWhileActive()
    ensures var s := Store(map[7 := Campaign(Completed, 0)], []);
            var run := [Event(Retry(7, false, 1), 0), Event(Delete(7), 1)];
            && IsRun(s, run, 0)
            && Play(s, run, 1).table == map[7 := Campaign(Active, 0)]
            && Play(s, run, 2).table == map[]
  {
    var s: State := Store(map[7 := Campaign(Completed, 0)], []);
    var run := [Event(Retry(7, false, 1), 0), Event(Delete(7), 1)];
    var one := Play(s, run, 1);
    assert AfterRead(s, 7, 0).cache == [Slot(7, Campaign(Completed, 0), 60000)];
    assert Play(s, run, 0) == s;
    assert Find(one.cache, 7) == Some(Slot(7, Campaign(Completed, 0), 60000));
    assert one.table == map[7 := Campaign(Active, 0)];
  }
}
