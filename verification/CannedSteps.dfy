/**
 * When the analysis worker runs a canned sequence step, and when a message gets both that and a reply.
 */
module CannedSteps {
  import opened Options
  import opened Decisions
  import opened ReplyProtocol

  // ---------------------------------------------------------------- what stops a run

  /** The guard the run is at is closed. All of these stand before the claim lookup. */
  predicate GuardClosed(w: World, run: Run) {
    var window := Window(Thread(w, run.contact));
    match run.pc
    case AtContact => run.contact !in w.contacts
    case AtSwitch => !w.switchOn || run.excluded
    case AtCampaign => run.campaign.Some? && run.campaign.value in w.campaignOff
    case AtEnrolment => run.enrolment.Some? && run.enrolment.value in w.human
    case AtHistory => !HasOutbound(window) || Trailing(window) >= MAX_CONSECUTIVE_AI_REPLIES
    case _ => false
  }

  /** This event is a step of run `r` that meets a closed guard, or starts it on a message of ours. */
  predicate GuardStops(w: World, e: Event, r: nat) {
    match e
    case Begin(b, _, m, _, _, _, _) => b == r && r !in w.runs && !IsHumanInbound(m)
    case Do(b, luck) => b == r && r in w.runs && !luck.throws && GuardClosed(w, w.runs[r])
    case _ => false
  }

  /** This event is a step of run `r` in which the model gives no reply worth sending. */
  predicate ModelStops(w: World, e: Event, r: nat) {
    e.Do? && e.run == r && r in w.runs && !e.luck.throws && w.runs[r].pc.AtModel? && e.luck.reply != Good
  }

  predicate Stops(w: World, e: Event, r: nat) {
    GuardStops(w, e, r) || ModelStops(w, e, r)
  }

  /**
   * This event is the last step of run `r`; its enrolment is with the automation, its contact may be
   * written to, and a branch of the sequence fires.
   */
  predicate FiresAt(w: World, e: Event, r: nat) {
    && e.Do? && e.run == r && r in w.runs && e.luck.fires && w.runs[r].pc.Returned?
    && w.runs[r].enrolment.Some? && w.runs[r].enrolment.value !in w.human && Reachable(w, w.runs[r].contact)
  }

  /** At some point of the interleaving a closed guard stopped the run. */
  predicate Guarded(w: World, es: seq<Event>, r: nat)
    decreases |es|
  {
    es != [] && (GuardStops(w, es[0], r) || Guarded(Apply(w, es[0], true), es[1..], r))
  }

  predicate Stopped(w: World, es: seq<Event>, r: nat)
    decreases |es|
  {
    es != [] && (Stops(w, es[0], r) || Stopped(Apply(w, es[0], true), es[1..], r))
  }

  /** At the end of the run the sequence fired. */
  predicate Fired(w: World, es: seq<Event>, r: nat)
    decreases |es|
  {
    es != [] && (FiresAt(w, es[0], r) || Fired(Apply(w, es[0], true), es[1..], r))
  }

  // ---------------------------------------------------------------- one event

  /** What never changes about a run, and that it ends only once. */
  predicate SameRun(run: Run, run': Run) {
    && run'.path == run.path && run'.message == run.message && run'.contact == run.contact
    && run'.campaign == run.campaign && run'.enrolment == run.enrolment
    && run'.claimedAtStart == run.claimedAtStart && run'.prior == run.prior
    && (Ended(run.pc) ==> Ended(run'.pc) && run'.pc.reason == run.pc.reason)
  }

  /** Other runs' steps, and what people do, leave a run alone. */
  lemma Elsewhere(w: World, e: Event, r: nat)
    requires e.Do? ==> e.run != r || r !in w.runs
    requires e.Begin? ==> e.run != r || r in w.runs
    ensures var next := Apply(w, e, true);
            (r in next.runs <==> r in w.runs) && (r in w.runs ==> next.runs[r] == w.runs[r])
  {
    hide NextPc, RunsSequence, HandOver, ReturnedRuns, IsHumanInbound;
  }

  lemma StepSame(w: World, e: Event, r: nat)
    requires r in w.runs
    ensures var next := Apply(w, e, true); r in next.runs && SameRun(w.runs[r], next.runs[r])
  {
    hide Step;
    if e.Do? && e.run == r {
      DoSame(w, r, e.luck);
    } else {
      hide Apply;
      Elsewhere(w, e, r);
    }
  }

  lemma DoSame(w: World, r: nat, luck: Luck)
    requires r in w.runs
    ensures var next := Step(w, r, luck, true); r in next.runs && SameRun(w.runs[r], next.runs[r])
  {
    hide NextPc, RunsSequence, HandOver;
    EndedStays(w, w.runs[r], luck);
  }

  lemma EndedStays(w: World, run: Run, luck: Luck)
    ensures Ended(run.pc) ==> NextPc(w, run, luck, true) == Finished(run.pc.reason)
  {
  }

  lemma SameTrans(a: Run, b: Run, c: Run)
    requires SameRun(a, b) && SameRun(b, c)
    ensures SameRun(a, c)
  {
  }

  lemma {:induction false} PlaySame(w: World, es: seq<Event>, r: nat)
    requires r in w.runs
    ensures var end := Play(w, es, true); r in end.runs && SameRun(w.runs[r], end.runs[r])
    decreases |es|
  {
    hide Apply, SameRun;
    if es == [] {
      SameSelf(w.runs[r]);
    } else {
      var next := Apply(w, es[0], true);
      StepSame(w, es[0], r);
      PlaySame(next, es[1..], r);
      SameTrans(w.runs[r], next.runs[r], Play(next, es[1..], true).runs[r]);
    }
  }

  lemma SameSelf(run: Run)
    ensures SameRun(run, run)
  {
  }

  /** Stopped, but not by the claim: what the worker still answers with the sequence. */
  predicate Plain(pc: Pc) {
    pc.AtHandover? || (pc.Returned? && pc.reason != Queued && pc.reason != AlreadyAnswered)
  }

  lemma FinishedIdle(w: World, e: Event, r: nat)
    requires r in w.runs && w.runs[r].pc.Finished?
    ensures var next := Apply(w, e, true); r in next.runs && next.runs[r] == w.runs[r]
    ensures !Stops(w, e, r) && !FiresAt(w, e, r)
  {
    hide NextPc, RunsSequence, HandOver, IsHumanInbound;
    if !e.Do? || e.run != r {
      hide Apply;
      Elsewhere(w, e, r);
    }
  }

  /** Control goes to a stop exactly from a closed guard, a declining model, or an earlier stop. */
  lemma PlainNext(w: World, run: Run, luck: Luck)
    requires !Ended(run.pc)
    requires run.pc.AtHandover? ==> run.pc.reason == NoConversationYet || run.pc.reason == NeedsHuman
    ensures Plain(NextPc(w, run, luck, true)) <==>
              Plain(run.pc) || GuardClosed(w, run) || (run.pc.AtModel? && luck.reply != Good)
    ensures !NextPc(w, run, luck, true).Finished? && (run.pc.AtHandover? ==> Plain(run.pc))
  {
    hide Window, Trailing, HasOutbound;
  }

  /** What a step of a worker makes of its run. */
  ghost predicate Outcome(w: World, e: Event, r: nat, run: Run, run': Run) {
    if run'.pc.Finished? then
      !Stops(w, e, r) && (run'.canned <==> run.canned || (Plain(run.pc) && FiresAt(w, e, r)))
    else
      !FiresAt(w, e, r) && run'.canned == run.canned && (Plain(run'.pc) <==> Plain(run.pc) || Stops(w, e, r))
  }

  lemma WorkerMoves(w: World, r: nat, luck: Luck)
    requires r in w.runs && !Ended(w.runs[r].pc) && (luck.throws ==> w.runs[r].pc.AtHandover?)
    requires w.runs[r].pc.AtHandover? ==>
               w.runs[r].pc.reason == NoConversationYet || w.runs[r].pc.reason == NeedsHuman
    ensures var next := Step(w, r, luck, true);
            r in next.runs && Outcome(w, Do(r, luck), r, w.runs[r], next.runs[r])
  {
    hide HandOver, GuardClosed, NextPc, Plain;
    PlainNext(w, w.runs[r], luck);
  }

  lemma WorkerEnds(w: World, r: nat, luck: Luck)
    requires r in w.runs && w.runs[r].path.Worker?
    requires w.runs[r].pc.Returned? || (luck.throws && !w.runs[r].pc.Finished? && !w.runs[r].pc.AtHandover?)
    ensures var next := Step(w, r, luck, true);
            r in next.runs && Outcome(w, Do(r, luck), r, w.runs[r], next.runs[r])
  {
    hide HandOver, Window, Trailing, HasOutbound, Thread;
  }

  lemma WorkerStep(w: World, e: Event, r: nat)
    requires r in w.runs && w.runs[r].path.Worker? && !w.runs[r].pc.Finished?
    requires w.runs[r].pc.AtHandover? ==>
               w.runs[r].pc.reason == NoConversationYet || w.runs[r].pc.reason == NeedsHuman
    ensures var next := Apply(w, e, true); r in next.runs && Outcome(w, e, r, w.runs[r], next.runs[r])
  {
    hide Step;
    if e.Do? && e.run == r {
      hide Outcome;
      if w.runs[r].pc.Returned? || (e.luck.throws && !w.runs[r].pc.AtHandover?) {
        WorkerEnds(w, r, e.luck);
      } else {
        WorkerMoves(w, r, e.luck);
      }
    } else {
      hide Apply;
      Elsewhere(w, e, r);
    }
  }

  lemma WorkerBegins(w: World, e: Event, r: nat)
    requires r !in w.runs
    ensures !FiresAt(w, e, r)
    ensures var next := Apply(w, e, true);
            if r in next.runs then
              && !next.runs[r].canned && !next.runs[r].pc.Finished?
              && (Plain(next.runs[r].pc) <==> Stops(w, e, r))
            else !Stops(w, e, r)
  {
    hide IsHumanInbound, Step, ReturnedRuns;
    if !e.Begin? || e.run != r {
      hide Apply;
      Elsewhere(w, e, r);
    }
  }

  // ---------------------------------------------------------------- exactly when a canned step runs

  lemma {:induction false} NothingMore(w: World, es: seq<Event>, r: nat)
    requires r in w.runs && w.runs[r].pc.Finished?
    ensures !Stopped(w, es, r) && !Fired(w, es, r)
    ensures var end := Play(w, es, true); r in end.runs && end.runs[r] == w.runs[r]
    decreases |es|
  {
    hide Apply, Stops, FiresAt;
    if es != [] {
      FinishedIdle(w, es[0], r);
      NothingMore(Apply(w, es[0], true), es[1..], r);
    }
  }

  lemma {:induction false} CannedFrom(w: World, es: seq<Event>, r: nat)
    requires Inv(w) && NoExpiry(es)
    requires var end := Play(w, es, true); r in end.runs && end.runs[r].path.Worker?
    ensures Play(w, es, true).runs[r].canned <==>
              || (r in w.runs && w.runs[r].canned)
              || (((r in w.runs && Plain(w.runs[r].pc)) || Stopped(w, es, r)) && Fired(w, es, r))
    decreases |es|
  {
    hide Apply, Stops, FiresAt, Inv, Plain;
    if es != [] {
      var e, next := es[0], Apply(w, es[0], true);
      ApplyKeeps(w, e);
      if r in w.runs {
        PlaySame(w, es, r);
        if w.runs[r].pc.Finished? {
          FinishedIdle(w, e, r);
          FinishedIsNotPlain(w.runs[r]);
        } else {
          HandoverReason(w, r);
          WorkerStep(w, e, r);
          if next.runs[r].pc.Finished? {
            NothingMore(next, es[1..], r);
          }
        }
      } else {
        WorkerBegins(w, e, r);
      }
      CannedFrom(next, es[1..], r);
      if r in next.runs && next.runs[r].pc.Finished? {
        FinishedIsNotPlain(next.runs[r]);
      }
    }
  }

  lemma FinishedIsNotPlain(run: Run)
    requires run.pc.Finished?
    ensures !Plain(run.pc)
  {
  }

  lemma HandoverReason(w: World, r: nat)
    requires Inv(w) && r in w.runs
    ensures w.runs[r].pc.AtHandover? ==>
              w.runs[r].pc.reason == NoConversationYet || w.runs[r].pc.reason == NeedsHuman
  {
    assert RunOk(w, r);
  }

  /**
   * In every interleaving a worker runs a canned step exactly when something other than the claim
   * stopped it and, at its last step, its enrolment is with the automation and a branch fires.
   */
  lemma CannedExactly(w: World, es: seq<Event>, r: nat)
    requires Initial(w) && NoExpiry(es)
    requires var end := Play(w, es, true); r in end.runs && end.runs[r].path.Worker?
    ensures Play(w, es, true).runs[r].canned <==> Stopped(w, es, r) && Fired(w, es, r)
  {
    hide Stopped, Fired, Play;
    CannedFrom(w, es, r);
  }

  // ---------------------------------------------------------------- exactly when both happen

  /** A run that began with the claim held never gets as far as the model. */
  lemma {:induction false} OnlyGuards(w: World, es: seq<Event>, r: nat)
    requires Inv(w) && NoExpiry(es)
    requires var end := Play(w, es, true); r in end.runs && end.runs[r].claimedAtStart
    ensures Stopped(w, es, r) <==> Guarded(w, es, r)
    decreases |es|
  {
    hide Apply, GuardStops, Inv;
    if es != [] {
      if r in w.runs {
        PlaySame(w, es, r);
        NotAtModel(w, r);
      }
      ApplyKeeps(w, es[0]);
      OnlyGuards(Apply(w, es[0], true), es[1..], r);
    }
  }

  lemma NotAtModel(w: World, r: nat)
    requires Inv(w) && r in w.runs && w.runs[r].claimedAtStart
    ensures !w.runs[r].pc.AtModel?
  {
    assert RunOk(w, r);
  }

  lemma PriorClaimed(w: World, a: nat, b: nat)
    requires Inv(w) && b in w.runs && a in w.runs[b].prior && a in w.runs && IsQueued(w.runs[a])
    ensures w.runs[b].claimedAtStart
  {
  }

  /**
   * Run `a` queued the reply and had returned when worker `b`, one of any number, began on the same
   * message. The prospect gets the reply, and gets a canned step as well exactly when `b` met a guard
   * that was closed when it came to it, all of them standing before the claim lookup, and the sequence
   * then fired.
   */
  lemma ReplyOrSequence(w: World, es: seq<Event>, a: nat, b: nat)
    requires Initial(w) && NoExpiry(es)
    requires var end := Play(w, es, true);
             && a in end.runs && b in end.runs && a in end.runs[b].prior && IsQueued(end.runs[a])
             && end.runs[b].path.Worker?
    ensures var end := Play(w, es, true);
            && HasJob(end, end.runs[b].message.id)
            && (end.runs[b].canned <==> Guarded(w, es, b) && Fired(w, es, b))
  {
    hide Guarded, Fired, Stopped, Play, Inv;
    InitialInv(w);
    PlayKeeps(w, es);
    var end := Play(w, es, true);
    QueuedHasJob(end, a);
    SameMessage(end, a, b);
    PriorClaimed(end, a, b);
    OnlyGuards(w, es, b);
    CannedExactly(w, es, b);
  }

  lemma SameMessage(w: World, a: nat, b: nat)
    requires Inv(w) && b in w.runs && a in w.runs[b].prior
    ensures a in w.runs && w.runs[a].message.id == w.runs[b].message.id
  {
  }

  lemma InitialInv(w: World)
    requires Initial(w)
    ensures Inv(w)
  {
  }

  predicate WorkerFor(w: World, b: nat, message: nat) {
    b in w.runs && w.runs[b].path.Worker? && w.runs[b].message.id == message
  }

  predicate RepliesTo(w: World, a: nat, message: nat) {
    a in w.runs && w.runs[a].message.id == message && IsQueued(w.runs[a])
  }

  /**
   * Whatever the order of the two, a message gets both a reply and a canned step exactly when some run
   * queued the reply, and some worker was stopped by something other than the claim and then fired.
   */
  lemma BothExactly(w: World, es: seq<Event>, message: nat)
    requires Initial(w) && NoExpiry(es)
    ensures var end := Play(w, es, true);
            && (HasJob(end, message) <==> exists a :: RepliesTo(end, a, message))
            && ((exists b :: WorkerFor(end, b, message) && end.runs[b].canned) <==>
                (exists b :: WorkerFor(end, b, message) && Stopped(w, es, b) && Fired(w, es, b)))
  {
    hide Stopped, Fired, Play, Inv;
    InitialInv(w);
    PlayKeeps(w, es);
    var end := Play(w, es, true);
    JobsAreReplies(end, message);
    forall b | WorkerFor(end, b, message)
      ensures end.runs[b].canned <==> Stopped(w, es, b) && Fired(w, es, b)
    {
      CannedExactly(w, es, b);
    }
  }

  lemma JobsAreReplies(w: World, message: nat)
    requires Inv(w)
    ensures HasJob(w, message) <==> exists a :: RepliesTo(w, a, message)
  {
    if HasJob(w, message) {
      var k :| 0 <= k < |w.jobs| && w.jobs[k].inbound == message;
      assert JobOk(w, w.jobs[k]);
      assert RepliesTo(w, w.jobs[k].run, message);
    }
    if a :| RepliesTo(w, a, message) {
      QueuedHasJob(w, a);
    }
  }

  // ---------------------------------------------------------------- a worker left to itself

  lemma {:induction false} GoFinished(w: World, r: nat, n: nat)
    requires r in w.runs && w.runs[r].pc.Finished?
    ensures Go(w, r, n, true) == w
    decreases n
  {
    if n > 0 {
      GoFinished(w, r, n - 1);
    }
  }

  lemma GoOnce(w: World, r: nat, n: nat)
    requires r in w.runs
    ensures Go(w, r, n + 1, true) == Go(Step(w, r, GO, true), r, n, true)
  {
  }

  /** From its return a worker ends, with a canned step unless answered or with people. */
  lemma GoEnds(w: World, r: nat, reason: Reason, n: nat)
    requires r in w.runs && w.runs[r].path.Worker? && w.runs[r].enrolment.Some? && !w.runs[r].canned
    ensures var end := Go(At(w, r, Returned(reason)), r, n + 1, true);
            && r in end.runs
            && (end.runs[r].canned <==>
                  && reason != Queued && reason != AlreadyAnswered
                  && w.runs[r].enrolment.value !in w.human && Reachable(w, w.runs[r].contact))
  {
    hide Go;
    var v := At(w, r, Returned(reason));
    GoOnce(v, r, n);
    GoFinished(Step(v, r, GO, true), r, n);
  }

  lemma GoHandsOver(w: World, r: nat, n: nat)
    requires r in w.runs && w.runs[r].path.Worker? && w.runs[r].enrolment.Some? && !w.runs[r].canned
    ensures var end := Go(At(w, r, AtHandover(NoConversationYet)), r, n + 2, true);
            r in end.runs && !end.runs[r].canned
  {
    hide Go;
    var v := At(w, r, AtHandover(NoConversationYet));
    var u := w.(human := HandOver(w, w.runs[r], GO));
    GoOnce(v, r, n + 1);
    assert v.runs[r := v.runs[r].(pc := Returned(NoConversationYet))] == At(u, r, Returned(NoConversationYet)).runs;
    assert Step(v, r, GO, true) == At(u, r, Returned(NoConversationYet));
    GoEnds(u, r, NoConversationYet, n);
  }

  /** A switch is off for this run, or our own message is the latest word in the history window. */
  predicate Closed(w: World, run: Run) {
    var window := Window(Thread(w, run.contact));
    || !w.switchOn || (run.campaign.Some? && run.campaign.value in w.campaignOff)
    || (HasOutbound(window) && Trailing(window) >= MAX_CONSECUTIVE_AI_REPLIES)
  }

  lemma SwitchAlone(w: World, r: nat)
    requires r in w.runs && w.runs[r].message.id in w.claims
    requires var run := w.runs[r]; run.path.Worker? && run.enrolment.Some? && !run.canned
    requires w.runs[r].excluded <==> !Reachable(w, w.runs[r].contact)
    ensures var run := w.runs[r]; var end := Go(At(w, r, AtSwitch), r, 6, true);
            && r in end.runs
            && (end.runs[r].canned <==>
                  run.enrolment.value !in w.human && Reachable(w, run.contact) && Closed(w, run))
  {
    hide Window, Trailing, HasOutbound, Go, At, Thread;
    var run := w.runs[r];
    if !w.switchOn {
      Move(w, r, AtSwitch, Returned(DisabledGlobally), 5, true);
      GoEnds(w, r, DisabledGlobally, 4);
    } else if run.excluded {
      Move(w, r, AtSwitch, Returned(OptedOutOrSuppressed), 5, true);
      GoEnds(w, r, OptedOutOrSuppressed, 4);
    } else {
      Move(w, r, AtSwitch, AtCampaign, 5, true);
      CampaignAlone(w, r);
    }
  }

  lemma CampaignAlone(w: World, r: nat)
    requires r in w.runs && w.runs[r].message.id in w.claims && w.switchOn && Reachable(w, w.runs[r].contact)
    requires var run := w.runs[r]; run.path.Worker? && run.enrolment.Some? && !run.canned
    ensures var run := w.runs[r]; var end := Go(At(w, r, AtCampaign), r, 5, true);
            r in end.runs && (end.runs[r].canned <==> run.enrolment.value !in w.human && Closed(w, run))
  {
    hide Window, Trailing, HasOutbound, Go, At, Thread;
    var run := w.runs[r];
    if run.campaign.Some? && run.campaign.value in w.campaignOff {
      Move(w, r, AtCampaign, Returned(DisabledForCampaign), 4, true);
      GoEnds(w, r, DisabledForCampaign, 3);
    } else {
      Move(w, r, AtCampaign, AtEnrolment, 4, true);
      if run.enrolment.value in w.human {
        Move(w, r, AtEnrolment, Returned(HumanTakeover), 3, true);
        GoEnds(w, r, HumanTakeover, 2);
      } else {
        Move(w, r, AtEnrolment, AtHistory, 3, true);
        HistoryAlone(w, r);
      }
    }
  }

  lemma HistoryAlone(w: World, r: nat)
    requires r in w.runs && w.runs[r].message.id in w.claims && Reachable(w, w.runs[r].contact)
    requires var run := w.runs[r];
             run.path.Worker? && run.enrolment.Some? && !run.canned && run.enrolment.value !in w.human
    ensures var run := w.runs[r]; var end := Go(At(w, r, AtHistory), r, 3, true);
            var window := Window(Thread(w, run.contact));
            && r in end.runs
            && (end.runs[r].canned <==> HasOutbound(window) && Trailing(window) >= MAX_CONSECUTIVE_AI_REPLIES)
  {
    hide Window, Trailing, HasOutbound, Go, At, Thread;
    var window := Window(Thread(w, w.runs[r].contact));
    if !HasOutbound(window) {
      Move(w, r, AtHistory, AtHandover(NoConversationYet), 2, true);
      GoHandsOver(w, r, 0);
    } else if Trailing(window) >= MAX_CONSECUTIVE_AI_REPLIES {
      Move(w, r, AtHistory, Returned(LoopGuard), 2, true);
      GoEnds(w, r, LoopGuard, 1);
    } else {
      Move(w, r, AtHistory, AtClaimRead, 2, true);
      Move(w, r, AtClaimRead, Returned(AlreadyAnswered), 1, true);
      GoEnds(w, r, AlreadyAnswered, 0);
    }
  }

  /**
   * A worker that begins on a claimed message, meets no failure and is not interleaved with anything runs
   * the canned step exactly when, in the state it begins in, its enrolment is with the automation, its
   * contact may be written to, and a switch is off or our own message is the latest word in the history.
   */
  lemma WorkerAlone(w: World, r: nat)
    requires r in w.runs && w.runs[r].message.id in w.claims && w.runs[r].pc.AtContact?
    requires var run := w.runs[r]; run.path.Worker? && run.enrolment.Some? && !run.canned
    ensures var run := w.runs[r]; var end := Go(w, r, 7, true);
            && r in end.runs
            && (end.runs[r].canned <==>
                  run.enrolment.value !in w.human && Reachable(w, run.contact) && Closed(w, run))
  {
    hide Go, Closed;
    var run := w.runs[r];
    GoOnce(w, r, 6);
    if run.contact !in w.contacts {
      assert Step(w, r, GO, true) == At(w, r, Returned(NotHumanInbound));
      GoEnds(w, r, NotHumanInbound, 5);
    } else {
      var u := w.(runs := w.runs[r := run.(excluded := w.contacts[run.contact])]);
      assert w.runs[r := u.runs[r].(pc := AtSwitch)] == At(u, r, AtSwitch).runs;
      assert Step(w, r, GO, true) == At(u, r, AtSwitch);
      SwitchAlone(u, r);
      ClosedLocal(w, u, u.runs[r]);
      ClosedLocal(w, w, run);
    }
  }

  lemma ClosedLocal(w: World, u: World, run: Run)
    requires u == w.(runs := u.runs)
    ensures Closed(u, run) <==> Closed(w, run)
    ensures forall x :: Closed(w, run.(excluded := x)) <==> Closed(w, run)
  {
  }

  // ---------------------------------------------------------------- when both cannot happen

  /**
   * What the theorem rules out for the conversation of `run`: a switch turned off, the contact or the
   * enrolment given back to the automation, or a message of ours recorded.
   */
  predicate Disturbs(e: Event, run: Run) {
    match e
    case SetSwitch(on) => !on
    case SetCampaign(c, off) => off && run.campaign == Some(c)
    case SetContact(c, state) => c == run.contact && state == Some(false)
    case SetMode(cc, human) => !human && run.enrolment == Some(cc)
    case Record(c, m) => c == run.contact && m.direction == Outgoing
    case _ => false
  }

  /** How many of the guards before the claim lookup a run has passed; none, if one stopped it. */
  function Passed(pc: Pc): nat {
    match pc
    case AtCampaign => 1
    case AtEnrolment => 2
    case AtHistory => 3
    case AtClaimRead => 4
    case AtModel => 4
    case AtClaim => 4
    case AtEnqueue => 4
    case Returned(reason) => if reason == Queued then 4 else 0
    case Finished(reason) => if reason == Queued then 4 else 0
    case _ => 0
  }

  /** The switches and the loop guard that `run` has passed are still open. */
  predicate StillOpen(w: World, run: Run) {
    && (Passed(run.pc) >= 1 ==> w.switchOn)
    && (Passed(run.pc) >= 2 ==> run.campaign.Some? ==> run.campaign.value !in w.campaignOff)
    && (Passed(run.pc) >= 4 ==> Trailing(Window(Thread(w, run.contact))) == 0)
  }

  /** The sequence has nothing to fire for: no enrolment, one that is with people, or no such contact. */
  predicate Barred(w: World, run: Run) {
    run.enrolment.None? || run.enrolment.value in w.human || !Reachable(w, run.contact)
  }

  /** A worker that will not run a canned step: it is at an open guard, or barred, or answered. */
  predicate Harmless(w: World, run: Run) {
    && !run.canned
    && match run.pc
       case AtSwitch => run.excluded ==> Barred(w, run)
       case AtModel => false
       case AtClaim => false
       case AtEnqueue => false
       case AtHandover(reason) => reason == NoConversationYet
       case Returned(reason) => reason == AlreadyAnswered || Barred(w, run)
       case _ => true
  }

  /** Run `r` hands its enrolment to people, and the update fails. */
  predicate HandoverFails(w: World, e: Event, r: nat) {
    && e.Do? && e.run == r && r in w.runs && w.runs[r].pc.AtHandover?
    && w.runs[r].enrolment.Some? && !e.luck.flags
  }

  predicate HandoverFailed(w: World, es: seq<Event>, r: nat)
    decreases |es|
  {
    es != [] && (HandoverFails(w, es[0], r) || HandoverFailed(Apply(w, es[0], true), es[1..], r))
  }

  /** One more message moves the window by at most one. */
  lemma WindowMoves(thread: seq<Message>, m: Message) returns (d: nat)
    ensures d <= 1 && d <= |Window(thread)| && Window(thread + [m]) == Window(thread)[d..] + [m]
  {
    d := if |thread| < HISTORY_WINDOW then 0 else 1;
  }

  lemma {:induction false} TrailingAppend(history: seq<Message>, m: Message)
    requires m.direction != Outgoing
    ensures Trailing(history) == 0 ==> Trailing(history + [m]) == 0
  {
    assert (history + [m])[..|history|] == history;
  }

  lemma {:induction false} TrailingDrop(history: seq<Message>)
    requires history != []
    ensures Trailing(history) == 0 ==> Trailing(history[1..]) == 0
    decreases |history|
  {
    if |history| > 1 {
      var init := history[..|history| - 1];
      TrailingDrop(init);
      assert history[1..][..|history| - 2] == init[1..];
    }
  }

  /** Incoming messages alone never close the loop guard, whatever leaves the window. */
  lemma IncomingKeepsOpen(thread: seq<Message>, m: Message)
    requires m.direction != Outgoing && Trailing(Window(thread)) == 0
    ensures Trailing(Window(thread + [m])) == 0
  {
    hide Window, Trailing;
    var d := WindowMoves(thread, m);
    var w := Window(thread);
    if d == 0 {
      assert w[0..] == w;
    } else {
      TrailingDrop(w);
    }
    TrailingAppend(w[d..], m);
  }

  lemma OpenElsewhere(w: World, e: Event, run: Run)
    requires StillOpen(w, run) && !Disturbs(e, run)
    ensures StillOpen(Apply(w, e, true), run)
  {
    hide Trailing, Window, NextPc, RunsSequence, ReturnedRuns, IsHumanInbound, HandOver;
    if e.Record? && e.contact == run.contact && Passed(run.pc) >= 4 {
      IncomingKeepsOpen(Thread(w, run.contact), e.message);
    }
  }

  /** A run passes a guard only while it is open. */
  lemma PassedNext(w: World, run: Run, luck: Luck)
    requires StillOpen(w, run) && !run.pc.AtContact? && (run.pc.AtHandover? ==> run.pc.reason != Queued)
    ensures var pc := NextPc(w, run, luck, true); !pc.AtContact? && StillOpen(w, run.(pc := pc))
  {
    hide Trailing, Window, HasOutbound, Thread;
  }

  lemma OpenStep(w: World, a: nat, luck: Luck)
    requires a in w.runs && StillOpen(w, w.runs[a]) && !w.runs[a].pc.AtContact?
    requires w.runs[a].pc.AtHandover? ==> w.runs[a].pc.reason != Queued
    ensures var next := Step(w, a, luck, true); a in next.runs && StillOpen(next, next.runs[a])
    ensures !Step(w, a, luck, true).runs[a].pc.AtContact?
  {
    hide Trailing, Window, HasOutbound, RunsSequence, NextPc, HandOver;
    PassedNext(w, w.runs[a], luck);
  }

  lemma OpenStays(w: World, e: Event, a: nat)
    requires Inv(w) && a in w.runs && StillOpen(w, w.runs[a]) && !w.runs[a].pc.AtContact?
    requires !Disturbs(e, w.runs[a])
    ensures var next := Apply(w, e, true);
            a in next.runs && StillOpen(next, next.runs[a]) && !next.runs[a].pc.AtContact?
  {
    hide StillOpen, Step, Inv;
    if e.Do? && e.run == a {
      HandoverReason(w, a);
      OpenStep(w, a, e.luck);
    } else {
      OpenElsewhere(w, e, w.runs[a]);
      Elsewhere(w, e, a);
    }
  }

  /** The worker meets only open guards, and what it meets closed leaves the enrolment with people. */
  lemma HarmlessStep(w: World, a: nat, b: nat, luck: Luck)
    requires a in w.runs && StillOpen(w, w.runs[a]) && Passed(w.runs[a].pc) == 4
    requires b in w.runs && Harmless(w, w.runs[b]) && w.runs[b].path.Worker?
    requires w.runs[b].contact == w.runs[a].contact && w.runs[b].campaign == w.runs[a].campaign
    requires w.runs[b].message.id in w.claims
    requires !HandoverFails(w, Do(b, luck), b)
    ensures var next := Step(w, b, luck, true); b in next.runs && Harmless(next, next.runs[b])
  {
    hide Trailing, Window, HasOutbound;
  }

  lemma HarmlessElsewhere(w: World, e: Event, b: nat)
    requires b in w.runs && Harmless(w, w.runs[b]) && !Disturbs(e, w.runs[b])
    requires e.Do? ==> e.run != b
    ensures var next := Apply(w, e, true); b in next.runs && Harmless(next, next.runs[b])
  {
    hide NextPc, RunsSequence, ReturnedRuns, IsHumanInbound;
  }

  /** A worker that begins after the queued reply starts at the first guard. */
  lemma HarmlessBegin(w: World, e: Event, b: nat)
    requires e.Begin? && e.run == b && b !in w.runs && e.path.Worker? && IsHumanInbound(e.message)
    ensures var next := Apply(w, e, true); b in next.runs && Harmless(next, next.runs[b])
  {
  }

  lemma BeginFields(w: World, e: Event, b: nat)
    requires b !in w.runs && b in Apply(w, e, true).runs
    ensures e.Begin? && e.run == b
    ensures var run := Apply(w, e, true).runs[b]; run.path == e.path && run.message == e.message
  {
    hide NextPc, RunsSequence, HandOver, ReturnedRuns, IsHumanInbound;
  }

  /** The same conversation about the same message. */
  predicate SameTalk(run: Run, other: Run) {
    && run.message == other.message && run.contact == other.contact
    && run.campaign == other.campaign && run.enrolment == other.enrolment
  }

  lemma QueuedPassed(w: World, a: nat, b: nat, end: World)
    requires Inv(w) && b in w.runs && a in w.runs[b].prior && a in w.runs && a in end.runs
    requires SameRun(w.runs[a], end.runs[a]) && IsQueued(end.runs[a])
    ensures Passed(w.runs[a].pc) == 4 && IsQueued(w.runs[a])
    ensures w.runs[b].message.id in w.claims
  {
    assert RunOk(w, b);
  }

  lemma HumanQueued(w: World, a: nat)
    requires Inv(w) && a in w.runs && IsQueued(w.runs[a])
    ensures IsHumanInbound(w.runs[a].message)
  {
    assert RunOk(w, a);
  }

  /** One event of the run below. */
  lemma NeverBothStep(w: World, e: Event, a: nat, b: nat, end: World)
    requires Inv(w) && Inv(Apply(w, e, true)) && a in w.runs && StillOpen(w, w.runs[a]) && !Disturbs(e, w.runs[a])
    requires (b in w.runs ==> Harmless(w, w.runs[b])) && !HandoverFails(w, e, b)
    requires a in end.runs && b in end.runs && SameRun(w.runs[a], end.runs[a])
    requires b in Apply(w, e, true).runs ==> SameRun(Apply(w, e, true).runs[b], end.runs[b])
    requires b in w.runs ==> SameRun(w.runs[b], end.runs[b])
    requires IsQueued(end.runs[a]) && Inv(end) && end.runs[b].path.Worker? && a in end.runs[b].prior
    requires SameTalk(end.runs[b], end.runs[a])
    ensures var next := Apply(w, e, true); b in next.runs ==> Harmless(next, next.runs[b])
  {
    hide Inv, Harmless, Apply, Step, StillOpen, IsHumanInbound, Passed, HandoverFails;
    var next := Apply(w, e, true);
    if b in w.runs {
      if e.Do? && e.run == b {
        QueuedPassed(w, a, b, end);
        HarmlessStep(w, a, b, e.luck);
        DoIsStep(w, b, e.luck);
      } else {
        SameDisturbance(e, w.runs[a], w.runs[b]);
        HarmlessElsewhere(w, e, b);
      }
    } else if b in next.runs {
      BeginFields(w, e, b);
      HumanQueued(end, a);
      HarmlessBegin(w, e, b);
    }
  }

  lemma DoIsStep(w: World, r: nat, luck: Luck)
    requires r in w.runs
    ensures Apply(w, Do(r, luck), true) == Step(w, r, luck, true)
  {
  }

  lemma SameDisturbance(e: Event, run: Run, other: Run)
    requires SameTalk(run, other)
    ensures Disturbs(e, run) <==> Disturbs(e, other)
  {
  }

  lemma {:induction false} NeverBothFrom(w: World, es: seq<Event>, a: nat, b: nat)
    requires Inv(w) && NoExpiry(es) && a in w.runs && !w.runs[a].pc.AtContact? && StillOpen(w, w.runs[a])
    requires forall e :: e in es ==> !Disturbs(e, w.runs[a])
    requires (b in w.runs ==> Harmless(w, w.runs[b])) && !HandoverFailed(w, es, b)
    requires var end := Play(w, es, true);
             && Inv(end) && a in end.runs && b in end.runs && IsQueued(end.runs[a])
             && end.runs[b].path.Worker? && a in end.runs[b].prior && SameTalk(end.runs[b], end.runs[a])
    ensures !Play(w, es, true).runs[b].canned
    decreases |es|
  {
    hide Inv, Apply, StillOpen, Disturbs, Harmless, HandoverFails;
    if es == [] {
      HarmlessIsPlain(w, w.runs[b]);
    } else {
      var e, next, end := es[0], Apply(w, es[0], true), Play(w, es, true);
      ApplyKeeps(w, e);
      PlaySame(w, es, a);
      OpenStays(w, e, a);
      StepSame(w, e, a);
      if b in w.runs {
        PlaySame(w, es, b);
      }
      if b in next.runs {
        PlaySame(next, es[1..], b);
      }
      NeverBothStep(w, e, a, b, end);
      forall d | d in es[1..] ensures !Disturbs(d, next.runs[a]) {
        SameRunDisturbance(d, w.runs[a], next.runs[a]);
      }
      NeverBothFrom(next, es[1..], a, b);
    }
  }

  lemma SameRunDisturbance(e: Event, run: Run, other: Run)
    requires SameRun(run, other)
    ensures Disturbs(e, run) <==> Disturbs(e, other)
  {
  }

  lemma HarmlessIsPlain(w: World, run: Run)
    requires Harmless(w, run)
    ensures !run.canned
  {
  }

  /** A run whose handover failed was stopped before. */
  lemma {:induction false} FailedIsStopped(w: World, es: seq<Event>, r: nat)
    requires Inv(w) && NoExpiry(es) && HandoverFailed(w, es, r)
    requires var end := Play(w, es, true); r in end.runs && end.runs[r].path.Worker?
    ensures (r in w.runs && Plain(w.runs[r].pc)) || Stopped(w, es, r)
    decreases |es|
  {
    hide Apply, Stops, FiresAt, Inv, Plain, HandoverFails;
    var e, next := es[0], Apply(w, es[0], true);
    if HandoverFails(w, e, r) {
      FailsAtHandover(w, e, r);
    } else {
      ApplyKeeps(w, e);
      FailedIsStopped(next, es[1..], r);
      if r in next.runs && Plain(next.runs[r].pc) {
        if r in w.runs {
          PlaySame(w, es, r);
        }
        PlainBefore(w, e, r);
      }
    }
  }

  lemma FailsAtHandover(w: World, e: Event, r: nat)
    requires HandoverFails(w, e, r)
    ensures r in w.runs && Plain(w.runs[r].pc)
  {
  }

  lemma PlainBefore(w: World, e: Event, r: nat)
    requires Inv(w) && r in Apply(w, e, true).runs && Plain(Apply(w, e, true).runs[r].pc)
    requires r in w.runs ==> w.runs[r].path.Worker?
    ensures (r in w.runs && Plain(w.runs[r].pc)) || Stops(w, e, r)
  {
    hide Apply, Stops, FiresAt, Inv;
    if r !in w.runs {
      WorkerBegins(w, e, r);
    } else if w.runs[r].pc.Finished? {
      FinishedIdle(w, e, r);
    } else {
      HandoverReason(w, r);
      WorkerStep(w, e, r);
    }
  }

  /**
   * From the moment run `a` comes to its first guard, let no event disturb the conversation, in
   * particular let the reply not be recorded. If `a` queues the reply, a worker, one of any number, that
   * begins on the message after `a` returned runs a canned step exactly when it found no message of ours
   * left in the history window, could not hand its enrolment to people, and the sequence then fired.
   */
  lemma NeverBoth(w: World, before: seq<Event>, after: seq<Event>, a: nat, b: nat)
    requires Initial(w) && NoExpiry(before) && NoExpiry(after)
    requires var mid := Play(w, before, true);
             && a in mid.runs && mid.runs[a].pc.AtSwitch?
             && forall e :: e in after ==> !Disturbs(e, mid.runs[a])
    requires var end := Play(Play(w, before, true), after, true);
             && a in end.runs && b in end.runs && IsQueued(end.runs[a])
             && end.runs[b].path.Worker? && a in end.runs[b].prior && SameTalk(end.runs[b], end.runs[a])
    ensures var mid := Play(w, before, true);
            Play(mid, after, true).runs[b].canned <==> HandoverFailed(mid, after, b) && Fired(mid, after, b)
  {
    hide Play, Inv, Disturbs, SameTalk, HandoverFailed, Stopped, Fired;
    InitialInv(w);
    PlayKeeps(w, before);
    var mid := Play(w, before, true);
    PlayKeeps(mid, after);
    AtFirstGuard(mid, a);
    if b in mid.runs {
      PlaySame(mid, after, b);
      NotYetPrior(mid, a, b);
    }
    CannedFrom(mid, after, b);
    if HandoverFailed(mid, after, b) {
      FailedIsStopped(mid, after, b);
    } else {
      NeverBothFrom(mid, after, a, b);
    }
  }

  lemma AtFirstGuard(w: World, a: nat)
    requires a in w.runs && w.runs[a].pc.AtSwitch?
    ensures StillOpen(w, w.runs[a])
  {
  }

  lemma NotYetPrior(w: World, a: nat, b: nat)
    requires Inv(w) && a in w.runs && w.runs[a].pc.AtSwitch? && b in w.runs
    ensures a !in w.runs[b].prior
  {
  }
}
