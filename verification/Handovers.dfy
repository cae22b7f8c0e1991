/** What one uninterrupted pass of `maybeAutoReply` decides, and when a conversation ends up with people. */
module Handovers {
  import opened Options
  import opened Decisions
  import opened ReplyProtocol
  import opened CannedSteps

  // ---------------------------------------------------------------- a pass left to itself

  /** One of the ten latest messages is ours. */
  ghost predicate OursLately(thread: seq<Message>) {
    exists i :: 0 <= i < |thread| && |thread| - 10 <= i && thread[i].direction == Outgoing
  }

  lemma WindowHasOurs(thread: seq<Message>)
    ensures HasOutbound(Window(thread)) <==> OursLately(thread)
  {
    if OursLately(thread) {
      OursIsSeen(thread);
    }
    if HasOutbound(Window(thread)) {
      SeenIsOurs(thread);
    }
  }

  lemma OursIsSeen(thread: seq<Message>)
    requires OursLately(thread)
    ensures HasOutbound(Window(thread))
  {
    var i :| 0 <= i < |thread| && |thread| - 10 <= i && thread[i].direction == Outgoing;
    assert Window(thread)[i - (|thread| - |Window(thread)|)] == thread[i];
  }

  lemma SeenIsOurs(thread: seq<Message>)
    requires HasOutbound(Window(thread))
    ensures OursLately(thread)
  {
    var k :| 0 <= k < |Window(thread)| && Window(thread)[k].direction == Outgoing;
    assert thread[|thread| - |Window(thread)| + k] == Window(thread)[k];
  }

  /** What the pass comes to: the first of these that applies. */
  ghost function Verdict(w: World, run: Run, reply: Reply): Reason {
    if !w.switchOn then DisabledGlobally
    else if run.excluded then OptedOutOrSuppressed
    else if run.campaign.Some? && run.campaign.value in w.campaignOff then DisabledForCampaign
    else if run.enrolment.Some? && run.enrolment.value in w.human then HumanTakeover
    else if !OursLately(Thread(w, run.contact)) then NoConversationYet
    else if !Spoken(Thread(w, run.contact), 10) then LoopGuard
    else if run.message.id in w.claims then AlreadyAnswered
    else if reply == NoReply then NoReplyGenerated
    else if reply == Declined then NeedsHuman
    else Queued
  }

  /** `n` steps of run `r` with nothing in between. */
  function Solo(w: World, r: nat, luck: Luck, n: nat): World
    decreases n
  {
    if n == 0 then w else Solo(Apply(w, Do(r, luck), true), r, luck, n - 1)
  }

  /** The pass has ended for `reason`, with just the effects that reason stands for. */
  predicate Came(w: World, end: World, r: nat, flags: bool, reason: Reason)
    requires r in w.runs
  {
    var run := w.runs[r];
    && r in end.runs && Ended(end.runs[r].pc) && end.runs[r].pc.reason == reason
    && end.jobs == (if reason == Queued then w.jobs + [Job(r, run.message.id)] else w.jobs)
    && end.claims == (if reason == Queued then w.claims + {run.message.id} else w.claims)
    && end.human == (if (reason == NeedsHuman || reason == NoConversationYet) && run.enrolment.Some? && flags
                     then w.human + {run.enrolment.value} else w.human)
    && end.threads == w.threads && end.contacts == w.contacts
  }

  /** A step that only moves control. */
  lemma Moves(w: World, r: nat, luck: Luck, pc: Pc)
    requires r in w.runs && !luck.throws && pc == NextPc(w, w.runs[r], luck, true)
    requires var at := w.runs[r].pc;
             at.AtSwitch? || at.AtCampaign? || at.AtEnrolment? || at.AtHistory? || at.AtClaimRead? || at.AtModel?
    ensures Apply(w, Do(r, luck), true) == At(w, r, pc)
  {
    hide NextPc, HandOver;
    assert !RunsSequence(w, w.runs[r], luck);
    var run := w.runs[r];
    assert run.(pc := pc) == run.(pc := pc, excluded := run.excluded, canned := run.canned);
  }

  lemma {:induction false} EndedSolo(w: World, end: World, r: nat, luck: Luck, flags: bool, reason: Reason, n: nat)
    requires r in w.runs && Came(w, end, r, flags, reason)
    ensures Came(w, Solo(end, r, luck, n), r, flags, reason)
    decreases n
  {
    hide HandOver, RunsSequence;
    if n > 0 {
      EndedSolo(w, Apply(end, Do(r, luck), true), r, luck, flags, reason, n - 1);
    }
  }

  lemma CameFrom(w: World, pc: Pc, end: World, r: nat, flags: bool, reason: Reason)
    requires r in w.runs && Came(At(w, r, pc), end, r, flags, reason)
    ensures Came(w, end, r, flags, reason)
  {
  }

  lemma EndsAt(w: World, r: nat, luck: Luck, reason: Reason, n: nat)
    requires r in w.runs && reason != Queued && reason != NeedsHuman && reason != NoConversationYet
    ensures Came(w, Solo(At(w, r, Returned(reason)), r, luck, n), r, luck.flags, reason)
  {
    hide Solo;
    assert Came(w, At(w, r, Returned(reason)), r, luck.flags, reason);
    EndedSolo(w, At(w, r, Returned(reason)), r, luck, luck.flags, reason, n);
  }

  lemma SoloStep(w: World, r: nat, luck: Luck, n: nat)
    requires n > 0
    ensures Solo(w, r, luck, n) == Solo(Apply(w, Do(r, luck), true), r, luck, n - 1)
  {
  }

  /** Asking for people takes one more step. */
  lemma HandsOver(w: World, r: nat, luck: Luck, reason: Reason, n: nat)
    requires r in w.runs && (reason == NeedsHuman || reason == NoConversationYet) && n > 0
    ensures Came(w, Solo(At(w, r, AtHandover(reason)), r, luck, n), r, luck.flags, reason)
  {
    hide Solo, RunsSequence;
    var w1 := At(w, r, AtHandover(reason));
    var w2 := Apply(w1, Do(r, luck), true);
    SoloStep(w1, r, luck, n);
    assert Came(w, w2, r, luck.flags, reason);
    EndedSolo(w, w2, r, luck, luck.flags, reason, n - 1);
  }

  /** With a good reply and no claim, two steps claim the message and queue the reply. */
  lemma Queues(w: World, r: nat, luck: Luck, n: nat)
    requires r in w.runs && w.runs[r].message.id !in w.claims && !luck.throws && n >= 2
    ensures Came(w, Solo(At(w, r, AtClaim), r, luck, n), r, luck.flags, Queued)
  {
    hide *;
    var w1 := At(w, r, AtClaim);
    var w2 := Apply(w1, Do(r, luck), true);
    var w3 := Apply(w2, Do(r, luck), true);
    assert r in w1.runs && w1.runs[r] == w.runs[r].(pc := AtClaim) by { AtSelf(w, r, AtClaim); }
    SoloStep(w1, r, luck, n);
    SoloStep(w2, r, luck, n - 1);
    Claims(w, r, luck);
    EndedSolo(w, w3, r, luck, luck.flags, Queued, n - 2);
  }

  lemma AtSelf(w: World, r: nat, pc: Pc)
    requires r in w.runs
    ensures r in At(w, r, pc).runs && At(w, r, pc).runs[r] == w.runs[r].(pc := pc)
  {
  }

  lemma Claims(w: World, r: nat, luck: Luck)
    requires r in w.runs && w.runs[r].message.id !in w.claims && !luck.throws
    ensures var w2 := Apply(At(w, r, AtClaim), Do(r, luck), true);
            Came(w, Apply(w2, Do(r, luck), true), r, luck.flags, Queued)
  {
    hide RunsSequence, HandOver;
    var w2 := Apply(At(w, r, AtClaim), Do(r, luck), true);
    assert r in w2.runs && w2.runs[r].pc == AtEnqueue && w2.runs[r].message == w.runs[r].message;
    assert w2.claims == w.claims + {w.runs[r].message.id} && w2.jobs == w.jobs && w2.human == w.human;
  }

  lemma FromModel(w: World, r: nat, luck: Luck, n: nat)
    requires r in w.runs && w.runs[r].pc.AtModel? && w.runs[r].message.id !in w.claims && !luck.throws && n >= 3
    ensures Came(w, Solo(w, r, luck, n), r, luck.flags,
                 match luck.reply case NoReply => NoReplyGenerated case Declined => NeedsHuman case Good => Queued)
  {
    hide Solo, Came;
    SoloStep(w, r, luck, n);
    Moves(w, r, luck, NextPc(w, w.runs[r], luck, true));
    if luck.reply == NoReply {
      EndsAt(w, r, luck, NoReplyGenerated, n - 1);
    } else if luck.reply == Declined {
      HandsOver(w, r, luck, NeedsHuman, n - 1);
    } else {
      Queues(w, r, luck, n - 1);
    }
  }

  lemma FromHistory(w: World, r: nat, luck: Luck, n: nat)
    requires r in w.runs && w.runs[r].pc.AtHistory? && !luck.throws && n >= 5
    requires w.switchOn && !w.runs[r].excluded
    requires w.runs[r].campaign.Some? ==> w.runs[r].campaign.value !in w.campaignOff
    requires w.runs[r].enrolment.Some? ==> w.runs[r].enrolment.value !in w.human
    ensures Came(w, Solo(w, r, luck, n), r, luck.flags, Verdict(w, w.runs[r], luck.reply))
  {
    hide Solo, Came, Spoken, OursLately, HasOutbound, Trailing, Window;
    var run := w.runs[r];
    var thread := Thread(w, run.contact);
    WindowHasOurs(thread);
    GuardsMean(thread);
    SoloStep(w, r, luck, n);
    Moves(w, r, luck, NextPc(w, run, luck, true));
    if !OursLately(thread) {
      HandsOver(w, r, luck, NoConversationYet, n - 1);
    } else if !Spoken(thread, 10) {
      EndsAt(w, r, luck, LoopGuard, n - 1);
    } else {
      var w1 := At(w, r, AtClaimRead);
      SoloStep(w1, r, luck, n - 1);
      Moves(w1, r, luck, NextPc(w1, w1.runs[r], luck, true));
      AtAt(w, r, AtClaimRead, NextPc(w1, w1.runs[r], luck, true));
      if run.message.id in w.claims {
        EndsAt(w, r, luck, AlreadyAnswered, n - 2);
      } else {
        var w2 := At(w, r, AtModel);
        FromModel(w2, r, luck, n - 2);
        CameFrom(w, AtModel, Solo(w2, r, luck, n - 2), r, luck.flags, Verdict(w, run, luck.reply));
      }
    }
  }

  lemma AtAt(w: World, r: nat, pc: Pc, pc': Pc)
    requires r in w.runs
    ensures At(At(w, r, pc), r, pc') == At(w, r, pc')
  {
    assert w.runs[r := w.runs[r].(pc := pc)][r := w.runs[r].(pc := pc')] == w.runs[r := w.runs[r].(pc := pc')];
  }

  /**
   * A pass that nothing interrupts and no exception ends comes to its verdict on the state it began in,
   * and changes nothing but what the verdict stands for: a claim and one job for a reply, the enrolment in
   * the hands of people when the model asks for them or nothing of ours is on record.
   */
  lemma PassAlone(w: World, r: nat, luck: Luck)
    requires r in w.runs && w.runs[r].pc.AtSwitch? && !luck.throws
    ensures Came(w, Solo(w, r, luck, 8), r, luck.flags, Verdict(w, w.runs[r], luck.reply))
  {
    hide Solo, Came, Spoken, OursLately, HasOutbound, Trailing, Window;
    var run := w.runs[r];
    var w1, w2, w3 := At(w, r, AtCampaign), At(w, r, AtEnrolment), At(w, r, AtHistory);
    SoloStep(w, r, luck, 8);
    Moves(w, r, luck, NextPc(w, run, luck, true));
    if !w.switchOn {
      EndsAt(w, r, luck, DisabledGlobally, 7);
    } else if run.excluded {
      EndsAt(w, r, luck, OptedOutOrSuppressed, 7);
    } else {
      SoloStep(w1, r, luck, 7);
      Moves(w1, r, luck, NextPc(w1, w1.runs[r], luck, true));
      AtAt(w, r, AtCampaign, NextPc(w1, w1.runs[r], luck, true));
      if run.campaign.Some? && run.campaign.value in w.campaignOff {
        EndsAt(w, r, luck, DisabledForCampaign, 6);
      } else {
        SoloStep(w2, r, luck, 6);
        Moves(w2, r, luck, NextPc(w2, w2.runs[r], luck, true));
        AtAt(w, r, AtEnrolment, NextPc(w2, w2.runs[r], luck, true));
        if run.enrolment.Some? && run.enrolment.value in w.human {
          EndsAt(w, r, luck, HumanTakeover, 5);
        } else {
          FromHistory(w3, r, luck, 5);
          SameVerdict(w, r, AtHistory, luck.reply);
          CameFrom(w, AtHistory, Solo(w3, r, luck, 5), r, luck.flags, Verdict(w, run, luck.reply));
        }
      }
    }
  }

  lemma SameVerdict(w: World, r: nat, pc: Pc, reply: Reply)
    requires r in w.runs
    ensures Verdict(At(w, r, pc), At(w, r, pc).runs[r], reply) == Verdict(w, w.runs[r], reply)
  {
  }

  /** A worker looks the contact up first; without one it goes no further. */
  lemma WorkerPassAlone(w: World, r: nat, luck: Luck)
    requires r in w.runs && w.runs[r].pc.AtContact? && !luck.throws
    ensures var run := w.runs[r];
            Came(w, Solo(w, r, luck, 9), r, luck.flags,
                 if run.contact in w.contacts
                 then Verdict(w, run.(excluded := w.contacts[run.contact]), luck.reply) else NotHumanInbound)
  {
    hide Solo, Came, Spoken, OursLately, RunsSequence, HandOver;
    var run := w.runs[r];
    SoloStep(w, r, luck, 9);
    if run.contact in w.contacts {
      var next := run.(pc := AtSwitch, excluded := w.contacts[run.contact]);
      var w1 := w.(runs := w.runs[r := next]);
      assert Apply(w, Do(r, luck), true) == w1 by { LooksUp(w, r, luck); }
      PassAlone(w1, r, luck);
      CameSame(w, w1, Solo(w1, r, luck, 8), r, luck.flags, Verdict(w1, next, luck.reply));
    } else {
      assert Apply(w, Do(r, luck), true) == At(w, r, Returned(NotHumanInbound)) by { LooksUp(w, r, luck); }
      EndsAt(w, r, luck, NotHumanInbound, 8);
    }
  }

  lemma LooksUp(w: World, r: nat, luck: Luck)
    requires r in w.runs && w.runs[r].pc.AtContact? && !luck.throws
    ensures var run := w.runs[r];
            Apply(w, Do(r, luck), true) ==
            if run.contact in w.contacts
            then w.(runs := w.runs[r := run.(pc := AtSwitch, excluded := w.contacts[run.contact])])
            else At(w, r, Returned(NotHumanInbound))
  {
    assert !RunsSequence(w, w.runs[r], luck);
    var run := w.runs[r];
    assert run.(pc := Returned(NotHumanInbound))
        == run.(pc := Returned(NotHumanInbound), excluded := run.excluded, canned := run.canned);
  }

  lemma CameSame(w: World, w': World, end: World, r: nat, flags: bool, reason: Reason)
    requires r in w.runs && r in w'.runs && Came(w', end, r, flags, reason)
    requires w' == w.(runs := w'.runs) && w'.runs[r].message == w.runs[r].message
    requires w'.runs[r].enrolment == w.runs[r].enrolment
    ensures Came(w, end, r, flags, reason)
  {
  }

  /** Everything a path hands to `maybeAutoReply`, the contact as it is known when the pass begins. */
  ghost function VerdictOn(w: World, run: Run, reply: Reply): Reason {
    if run.message.direction != Incoming || run.message.aiGenerated then NotHumanInbound
    else if run.path.Webhook? then Verdict(w, run, reply)
    else if run.contact !in w.contacts then NotHumanInbound
    else Verdict(w, run.(excluded := w.contacts[run.contact]), reply)
  }

  /** From its beginning to its end, on either path, an undisturbed pass comes to that verdict. */
  lemma WholePass(w: World, e: Event, luck: Luck)
    requires e.Begin? && e.run !in w.runs && !luck.throws
    ensures var began := Apply(w, e, true);
            && e.run in began.runs && began == w.(runs := began.runs)
            && var run := began.runs[e.run];
               && run.path == e.path && run.message == e.message && run.contact == e.contact
               && run.excluded == e.excluded && run.campaign == e.campaign && run.enrolment == e.enrolment
               && !run.canned
               && Came(began, Solo(began, e.run, luck, 9), e.run, luck.flags, VerdictOn(w, run, luck.reply))
  {
    hide Solo, Came, Spoken, OursLately, Step, NextPc, ReturnedRuns;
    var r, began := e.run, Apply(w, e, true);
    var run := began.runs[r];
    if !IsHumanInbound(e.message) {
      assert At(began, r, Returned(NotHumanInbound)) == began by { SamePc(began, r); }
      EndsAt(began, r, luck, NotHumanInbound, 9);
    } else if e.path.Webhook? {
      PassAlone(began, r, luck);
      SoloLast(began, r, luck, 8);
      OneMore(began, Solo(began, r, luck, 8), r, luck, Verdict(began, run, luck.reply));
      VerdictLocal(w, began, run, luck.reply);
    } else {
      WorkerPassAlone(began, r, luck);
      VerdictLocal(w, began, run, luck.reply);
      if run.contact in w.contacts {
        VerdictLocal(w, began, run.(excluded := w.contacts[run.contact]), luck.reply);
      }
    }
  }

  lemma SamePc(w: World, r: nat)
    requires r in w.runs
    ensures At(w, r, w.runs[r].pc) == w
  {
    assert w.runs[r := w.runs[r].(pc := w.runs[r].pc)] == w.runs;
  }

  lemma {:induction false} SoloLast(w: World, r: nat, luck: Luck, n: nat)
    ensures Solo(w, r, luck, n + 1) == Solo(Solo(w, r, luck, n), r, luck, 1)
    decreases n
  {
    hide Apply;
    if n > 0 {
      SoloLast(Apply(w, Do(r, luck), true), r, luck, n - 1);
    }
  }

  lemma OneMore(w: World, end: World, r: nat, luck: Luck, reason: Reason)
    requires r in w.runs && Came(w, end, r, luck.flags, reason)
    ensures Came(w, Solo(end, r, luck, 1), r, luck.flags, reason)
  {
    EndedSolo(w, end, r, luck, luck.flags, reason, 1);
  }

  lemma VerdictLocal(w: World, w': World, run: Run, reply: Reply)
    requires w' == w.(runs := w'.runs)
    ensures Verdict(w', run, reply) == Verdict(w, run, reply)
  {
  }

  // ---------------------------------------------------------------- who is with people, in any interleaving

  /** A run ends asking for people: the model declined, nothing of ours is on record, or a worker failed. */
  predicate AsksForPeople(run: Run, run': Run) {
    && !Ended(run.pc) && Ended(run'.pc)
    && (run'.pc.reason == NeedsHuman || run'.pc.reason == NoConversationYet
        || (run.path.Worker? && run'.pc.reason == Error))
  }

  /** With this event a run on enrolment `id` ends so, and the update goes through. */
  predicate Hands(w: World, e: Event, id: nat) {
    && e.Do? && e.run in w.runs && w.runs[e.run].enrolment == Some(id) && e.luck.flags
    && e.run in Apply(w, e, true).runs && AsksForPeople(w.runs[e.run], Apply(w, e, true).runs[e.run])
  }

  lemma StepHands(w: World, r: nat, luck: Luck, id: nat)
    requires r in w.runs && RunOk(w, r)
    ensures id in Step(w, r, luck, true).human <==> id in w.human || Hands(w, Do(r, luck), id)
  {
    hide Window, Trailing, HasOutbound, Thread, RunsSequence, PastLookup, Holds;
    if !Ended(w.runs[r].pc) && !luck.throws && !w.runs[r].pc.AtHandover? {
      NotByThisStep(w, w.runs[r], luck);
    }
  }

  /** Away from the handover no step ends a run in those two ways. */
  lemma NotByThisStep(w: World, run: Run, luck: Luck)
    requires !Ended(run.pc) && !run.pc.AtHandover?
    ensures var pc := NextPc(w, run, luck, true);
            Ended(pc) ==> pc.reason != NeedsHuman && pc.reason != NoConversationYet && pc.reason != Error
  {
    hide Window, Trailing, HasOutbound, Thread;
  }

  lemma EventHands(w: World, e: Event, id: nat)
    requires Inv(w) && !e.Expire?
    ensures id in Apply(w, e, true).human <==>
            if e.SetMode? && e.target == id then e.human else id in w.human || Hands(w, e, id)
  {
    hide Step, AsksForPeople, ReturnedRuns, IsHumanInbound, PastLookup;
    if e.Do? && e.run in w.runs {
      assert RunOk(w, e.run);
      hide RunOk;
      StepHands(w, e.run, e.luck, id);
    }
  }

  /** The last word on the enrolment: a person's switch, or a run that asked for people. */
  predicate WithPeople(w: World, es: seq<Event>, id: nat)
    decreases |es|
  {
    if es == [] then id in w.human
    else
      var n := |es| - 1;
      if es[n].SetMode? && es[n].target == id then es[n].human
      else WithPeople(w, es[..n], id) || Hands(Play(w, es[..n], true), es[n], id)
  }

  lemma {:induction false} PlayLast(w: World, es: seq<Event>)
    requires es != []
    ensures var n := |es| - 1; Play(w, es, true) == Apply(Play(w, es[..n], true), es[n], true)
    decreases |es|
  {
    hide Apply;
    if |es| > 1 {
      PlayLast(Apply(w, es[0], true), es[1..]);
      assert es[1..][..|es| - 2] == es[..|es| - 1][1..];
    }
  }

  /** In every interleaving an enrolment is with people exactly when the last word on it put it there. */
  lemma {:induction false} WithPeopleExactly(w: World, es: seq<Event>, id: nat)
    requires Inv(w) && NoExpiry(es)
    ensures id in Play(w, es, true).human <==> WithPeople(w, es, id)
    decreases |es|
  {
    hide Apply, Inv, Hands;
    if es != [] {
      var n := |es| - 1;
      assert NoExpiry(es[..n]);
      WithPeopleExactly(w, es[..n], id);
      PlayKeepsInv(w, es[..n]);
      PlayLast(w, es);
      EventHands(Play(w, es[..n], true), es[n], id);
    }
  }

  lemma {:induction false} PlayKeepsInv(w: World, es: seq<Event>)
    requires Inv(w) && NoExpiry(es)
    ensures Inv(Play(w, es, true))
    decreases |es|
  {
    hide Apply, Inv;
    if es != [] {
      ApplyKeeps(w, es[0]);
      PlayKeepsInv(Apply(w, es[0], true), es[1..]);
    }
  }

  // ---------------------------------------------------------------- why a run asks

  /** Run `r` has ended for `reason`, or is about to. */
  predicate Heads(w: World, r: nat, reason: Reason) {
    r in w.runs && (w.runs[r].pc.AtHandover? || Ended(w.runs[r].pc)) && w.runs[r].pc.reason == reason
  }

  /** This step of run `r` has the model ask for people, or finds nothing of ours among the ten latest messages. */
  ghost predicate Calls(w: World, e: Event, r: nat, reason: Reason) {
    && e.Do? && e.run == r && r in w.runs && !e.luck.throws
    && ((reason == NeedsHuman && w.runs[r].pc.AtModel? && e.luck.reply == Declined)
        || (reason == NoConversationYet && w.runs[r].pc.AtHistory? && !OursLately(Thread(w, w.runs[r].contact))))
  }

  ghost predicate Called(w: World, es: seq<Event>, r: nat, reason: Reason)
    decreases |es|
  {
    es != [] && (Calls(w, es[0], r, reason) || Called(Apply(w, es[0], true), es[1..], r, reason))
  }

  lemma StepCalls(w: World, r: nat, luck: Luck, reason: Reason)
    requires r in w.runs && (reason == NeedsHuman || reason == NoConversationYet)
    ensures Heads(Step(w, r, luck, true), r, reason) <==> Heads(w, r, reason) || Calls(w, Do(r, luck), r, reason)
  {
    hide Window, Trailing, HasOutbound, OursLately, RunsSequence, HandOver;
    WindowHasOurs(Thread(w, w.runs[r].contact));
  }

  lemma EventCalls(w: World, e: Event, r: nat, reason: Reason)
    requires reason == NeedsHuman || reason == NoConversationYet
    ensures Heads(Apply(w, e, true), r, reason) <==> Heads(w, r, reason) || Calls(w, e, r, reason)
  {
    hide Step, OursLately, ReturnedRuns, IsHumanInbound;
    if e.Do? && e.run == r && r in w.runs {
      StepCalls(w, r, e.luck, reason);
    } else if e.Do? || (e.Begin? && e.run != r) {
      hide Apply;
      Elsewhere(w, e, r);
    }
  }

  /** A run ends asking for people exactly when the model asked, or the history gave it the reason. */
  lemma {:induction false} AsksExactly(w: World, es: seq<Event>, r: nat, reason: Reason)
    requires reason == NeedsHuman || reason == NoConversationYet
    ensures Heads(Play(w, es, true), r, reason) <==> Heads(w, r, reason) || Called(w, es, r, reason)
    decreases |es|
  {
    hide Apply, Heads, Calls;
    if es != [] {
      EventCalls(w, es[0], r, reason);
      AsksExactly(Apply(w, es[0], true), es[1..], r, reason);
    }
  }

  // ---------------------------------------------------------------- a request for people is honoured

  lemma {:induction false} StaysWithPeople(w: World, es: seq<Event>, id: nat)
    requires id in w.human && forall e :: e in es && e.SetMode? && e.target == id ==> e.human
    ensures id in Play(w, es, true).human
    decreases |es|
  {
    hide NextPc, RunsSequence, ReturnedRuns, IsHumanInbound;
    if es != [] {
      assert es[0] in es;
      StaysWithPeople(Apply(w, es[0], true), es[1..], id);
    }
  }

  /**
   * A run that ends asking for people leaves its enrolment with them, unless its own update failed or
   * somebody hands the enrolment back to the automation.
   */
  lemma {:induction false} RequestsAreHonoured(w: World, es: seq<Event>, r: nat, id: nat)
    requires Inv(w) && NoExpiry(es) && (forall e :: e in es && e.SetMode? && e.target == id ==> e.human)
    requires r in w.runs ==> !Ended(w.runs[r].pc)
    requires var end := Play(w, es, true);
             && r in end.runs && end.runs[r].enrolment == Some(id) && Ended(end.runs[r].pc)
             && (end.runs[r].pc.reason == NeedsHuman || end.runs[r].pc.reason == NoConversationYet)
    requires !HandoverFailed(w, es, r)
    ensures id in Play(w, es, true).human
    decreases |es|
  {
    hide Apply, Inv, HandoverFails, SameRun;
    if es != [] {
      var e, next := es[0], Apply(w, es[0], true);
      ApplyKeeps(w, e);
      if r in next.runs && Ended(next.runs[r].pc) {
        PlaySame(next, es[1..], r);
        SameEnd(next.runs[r], Play(w, es, true).runs[r]);
        EndsByHandover(w, e, r, id);
        StaysWithPeople(next, es[1..], id);
      } else {
        RequestsAreHonoured(next, es[1..], r, id);
      }
    }
  }

  lemma SameEnd(run: Run, run': Run)
    requires SameRun(run, run') && Ended(run.pc)
    ensures run'.enrolment == run.enrolment && run'.pc.reason == run.pc.reason
  {
  }

  lemma EndsByHandover(w: World, e: Event, r: nat, id: nat)
    requires Inv(w) && !e.Expire? && !HandoverFails(w, e, r) && (r in w.runs ==> !Ended(w.runs[r].pc))
    requires var next := Apply(w, e, true);
             && r in next.runs && next.runs[r].enrolment == Some(id) && Ended(next.runs[r].pc)
             && (next.runs[r].pc.reason == NeedsHuman || next.runs[r].pc.reason == NoConversationYet)
    ensures id in Apply(w, e, true).human
  {
    hide Inv, ReturnedRuns, IsHumanInbound, Step;
    if r in w.runs {
      if e.Do? && e.run == r {
        InvRun(w, r);
        StepEnds(w, r, e.luck, id);
      } else {
        hide Apply;
        Elsewhere(w, e, r);
      }
    } else if !(e.Begin? && e.run == r) {
      hide Apply;
      Elsewhere(w, e, r);
    }
  }

  lemma InvRun(w: World, r: nat)
    requires Inv(w) && r in w.runs
    ensures RunOk(w, r)
  {
  }

  lemma StepEnds(w: World, r: nat, luck: Luck, id: nat)
    requires r in w.runs && RunOk(w, r) && !HandoverFails(w, Do(r, luck), r) && !Ended(w.runs[r].pc)
    requires var next := Step(w, r, luck, true);
             r in next.runs && next.runs[r].enrolment == Some(id) && Ended(next.runs[r].pc)
             && (next.runs[r].pc.reason == NeedsHuman || next.runs[r].pc.reason == NoConversationYet)
    ensures id in Step(w, r, luck, true).human
  {
    hide NextPc, RunsSequence, PastLookup, Holds;
    if !luck.throws && !w.runs[r].pc.AtHandover? {
      NotByThisStep(w, w.runs[r], luck);
    }
  }
}
