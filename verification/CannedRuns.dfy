/** Runs in which a message gets both a reply and a canned step. */
module CannedRuns {
  import opened Options
  import opened Decisions
  import opened ReplyProtocol
  import opened CannedSteps

  /** The model has nothing to say. */
  const SILENT := Luck(NoReply, true, false, true)
  /** The update that hands the enrolment to people fails. */
  const UNFLAGGED := Luck(Good, true, false, false)

  lemma PlayDo(w: World, r: nat, luck: Luck, es: seq<Event>)
    requires r in w.runs
    ensures Play(w, [Do(r, luck)] + es, true) == Play(Step(w, r, luck, true), es, true)
  {
    hide Step, Play;
    PlayCons(w, Do(r, luck), es, true);
  }

  /** A worker goes as far as the model when it sees no claim. */
  lemma WorkerReachesModel(w: World, r: nat)
    requires Open(w) && r in w.runs && w.runs[r].message.id !in w.claims
    requires var run := w.runs[r];
             run.pc.AtContact? && !run.excluded && run.contact == 0 && run.campaign.None? && run.enrolment == Some(0)
    ensures Go(w, r, 6, true) == At(w, r, AtModel)
  {
    hide Go, MayAnswer;
    LooksUpContact(w, r);
    var u := At(w, r, AtSwitch);
    ReachesModel(u, r, true);
    assert At(u, r, AtModel) == At(w, r, AtModel);
  }

  /** From the model, a worker that gets no reply ends with a canned step. */
  lemma SilentThenCanned(w: World, r: nat)
    requires r in w.runs && w.runs[r].pc.AtModel? && w.runs[r].path.Worker? && !w.runs[r].canned
    requires w.runs[r].contact == 0 && Reachable(w, 0) && w.runs[r].enrolment == Some(0) && 0 !in w.human
    ensures var run := w.runs[r];
            Step(Step(w, r, SILENT, true), r, GO, true)
            == w.(runs := w.runs[r := run.(pc := Finished(NoReplyGenerated), canned := true)])
  {
    var v := Step(w, r, SILENT, true);
    assert v.runs[r] == w.runs[r].(pc := Returned(NoReplyGenerated));
    assert v.runs[r := v.runs[r].(pc := Finished(NoReplyGenerated), canned := true)]
        == w.runs[r := w.runs[r].(pc := Finished(NoReplyGenerated), canned := true)];
  }

  lemma SilentFirst(w: World, rest: seq<Event>) returns (v: World)
    requires Open(w) && 0 in w.runs && w.runs[0].message.id !in w.claims
    requires var run := w.runs[0];
             && run.path.Worker? && run.pc.AtContact? && !run.excluded && run.contact == 0 && run.campaign.None?
             && run.enrolment == Some(0) && !run.canned
    ensures Play(w, Gos(0, 6) + ([Do(0, SILENT)] + ([Do(0, GO)] + rest)), true) == Play(v, rest, true)
    ensures v == w.(runs := w.runs[0 := w.runs[0].(pc := Finished(NoReplyGenerated), canned := true)])
  {
    hide Play, Go, Gos, MayAnswer, Step;
    WorkerReachesModel(w, 0);
    var w2 := Go(w, 0, 6, true);
    SilentThenCanned(w2, 0);
    var w3 := Step(w2, 0, SILENT, true);
    assert 0 in w3.runs by { StepSame(w2, Do(0, SILENT), 0); }
    v := Step(w3, 0, GO, true);
    var e3 := [Do(0, GO)] + rest;
    PlayGos(w, 0, 6, [Do(0, SILENT)] + e3, true);
    PlayDo(w2, 0, SILENT, e3);
    PlayDo(w3, 0, GO, rest);
  }

  /** A worker finds the model silent and runs the sequence; executed again, it answers. */
  lemma CannedThenReply(w: World, message: Message) returns (es: seq<Event>)
    requires Initial(w) && Open(w) && IsHumanInbound(message)
    ensures NoExpiry(es)
    ensures var end := Play(w, es, true); HasJob(end, message.id) && WorkerFor(end, 0, message.id) && end.runs[0].canned
  {
    hide Play, Go, Gos, MayAnswer, Step;
    var b0 := Begin(0, Worker, message, 0, false, None, Some(0));
    var b1 := Begin(1, Worker, message, 0, false, None, Some(0));
    var w1 := Apply(w, b0, true);
    var rest := [b1] + (Gos(1, 6) + Gos(1, 3));
    var w4 := SilentFirst(w1, rest);
    var w5 := Apply(w4, b1, true);
    WorkerReachesModel(w5, 1);
    var w6 := Go(w5, 1, 6, true);
    QueuesReply(w6, 1, true);
    var w7 := Go(w6, 1, 3, true);
    assert w7.jobs[0].inbound == message.id;
    es := [b0] + (Gos(0, 6) + ([Do(0, SILENT)] + ([Do(0, GO)] + rest)));
    PlayCons(w, b0, Gos(0, 6) + ([Do(0, SILENT)] + ([Do(0, GO)] + rest)), true);
    PlayCons(w4, b1, Gos(1, 6) + Gos(1, 3), true);
    PlayGos(w5, 1, 6, Gos(1, 3), true);
    PlayGos(w6, 1, 3, [], true);
    assert Gos(1, 3) + [] == Gos(1, 3);
    PlayNothing(w7, true);
    GosNoExpiry(0, 6);
    GosNoExpiry(1, 6);
    GosNoExpiry(1, 3);
  }

  // ---------------------------------------------------------------- a handover that fails unnoticed

  /** `n` further messages from the contact, recorded one after another. */
  function Chatter(n: nat): seq<Message> {
    if n == 0 then [] else Chatter(n - 1) + [Message(n, Incoming, false)]
  }

  function Recorded(ms: seq<Message>): seq<Event> {
    if ms == [] then [] else [Record(0, ms[0])] + Recorded(ms[1..])
  }

  lemma {:induction false} ChatterIncoming(n: nat)
    ensures |Chatter(n)| == n && forall i :: 0 <= i < n ==> Chatter(n)[i].direction == Incoming
  {
    if n > 0 {
      ChatterIncoming(n - 1);
    }
  }

  lemma {:induction false} RecordedPlays(w: World, ms: seq<Message>, es: seq<Event>)
    requires ms != []
    ensures Play(w, Recorded(ms) + es, true) == Play(w.(threads := w.threads[0 := Thread(w, 0) + ms]), es, true)
    decreases |ms|
  {
    hide Play;
    var rest := Recorded(ms[1..]);
    var next := Apply(w, Record(0, ms[0]), true);
    assert Recorded(ms) + es == [Record(0, ms[0])] + (rest + es);
    PlayCons(w, Record(0, ms[0]), rest + es, true);
    if |ms| == 1 {
      assert rest + es == es;
      assert ms == [ms[0]];
    } else {
      RecordedPlays(next, ms[1..], es);
      assert (Thread(w, 0) + [ms[0]]) + ms[1..] == Thread(w, 0) + ms;
      assert next.threads[0 := Thread(next, 0) + ms[1..]] == w.threads[0 := Thread(w, 0) + ms];
    }
  }

  lemma {:induction false} RecordedIsQuiet(ms: seq<Message>, run: Run)
    requires forall i :: 0 <= i < |ms| ==> ms[i].direction == Incoming
    ensures NoExpiry(Recorded(ms)) && forall e :: e in Recorded(ms) ==> !Disturbs(e, run)
  {
    if ms != [] {
      RecordedIsQuiet(ms[1..], run);
    }
  }

  lemma {:induction false} GosAreQuiet(r: nat, n: nat, run: Run)
    ensures forall e :: e in Gos(r, n) ==> !Disturbs(e, run)
  {
    if n > 0 {
      GosAreQuiet(r, n - 1, run);
    }
  }

  /** Ten messages from the contact fill the history window. */
  lemma WindowFilled(thread: seq<Message>)
    ensures !HasOutbound(Window(thread + Chatter(HISTORY_WINDOW)))
  {
    ChatterIncoming(HISTORY_WINDOW);
    assert Window(thread + Chatter(HISTORY_WINDOW)) == Chatter(HISTORY_WINDOW);
  }

  /** A worker that finds no message of ours hands over; if that fails, it runs the sequence. */
  lemma UnflaggedThenCanned(w: World, r: nat)
    requires r in w.runs && w.switchOn && 0 !in w.human && Reachable(w, 0)
    requires !HasOutbound(Window(Thread(w, 0)))
    requires var run := w.runs[r];
             && run.path.Worker? && run.pc.AtContact? && run.contact == 0 && run.campaign.None?
             && run.enrolment == Some(0) && !run.excluded && !run.canned
    ensures Go(w, r, 5, true) == At(w, r, AtHandover(NoConversationYet))
    ensures Step(Step(At(w, r, AtHandover(NoConversationYet)), r, UNFLAGGED, true), r, GO, true)
            == w.(runs := w.runs[r := w.runs[r].(pc := Finished(NoConversationYet), canned := true)])
  {
    hide Window, HasOutbound, Trailing, Go, At;
    GoOnce(w, r, 4);
    assert Step(w, r, GO, true) == At(w, r, AtSwitch) by { FirstStep(w, r); }
    Move(w, r, AtSwitch, AtCampaign, 3, true);
    Move(w, r, AtCampaign, AtEnrolment, 2, true);
    Move(w, r, AtEnrolment, AtHistory, 1, true);
    Move(w, r, AtHistory, AtHandover(NoConversationYet), 0, true);
    GoNowhere(At(w, r, AtHandover(NoConversationYet)), r, true);
    LastSteps(w, r);
  }

  lemma FirstStep(w: World, r: nat)
    requires r in w.runs && w.runs[r].pc.AtContact? && w.runs[r].contact in w.contacts
    requires w.runs[r].excluded == w.contacts[w.runs[r].contact]
    ensures Step(w, r, GO, true) == At(w, r, AtSwitch)
  {
  }

  lemma LastSteps(w: World, r: nat)
    requires r in w.runs && 0 !in w.human && Reachable(w, 0) && w.runs[r].path.Worker? && !w.runs[r].canned
    requires w.runs[r].contact == 0 && w.runs[r].enrolment == Some(0)
    ensures Step(Step(At(w, r, AtHandover(NoConversationYet)), r, UNFLAGGED, true), r, GO, true)
            == w.(runs := w.runs[r := w.runs[r].(pc := Finished(NoConversationYet), canned := true)])
  {
    var v := At(w, r, AtHandover(NoConversationYet));
    var u := Step(v, r, UNFLAGGED, true);
    assert u == At(w, r, Returned(NoConversationYet)) by {
      assert v.runs[r := v.runs[r].(pc := Returned(NoConversationYet))] == At(w, r, Returned(NoConversationYet)).runs;
    }
    assert u.runs[r := u.runs[r].(pc := Finished(NoConversationYet), canned := true)]
        == w.runs[r := w.runs[r].(pc := Finished(NoConversationYet), canned := true)];
  }

  /** The webhook run answers, and ten messages follow before anything is recorded. */
  lemma AnsweredThenFilled(w: World, rest: seq<Event>) returns (v: World)
    requires Open(w) && 0 in w.runs && AtStart(w.runs[0]) && w.runs[0].message.id !in w.claims
    ensures Play(w, Gos(0, 5) + (Gos(0, 3) + (Recorded(Chatter(HISTORY_WINDOW)) + rest)), true) == Play(v, rest, true)
    ensures v.switchOn && 0 !in v.human && Reachable(v, 0) && !HasOutbound(Window(Thread(v, 0)))
    ensures v.runs == w.runs[0 := w.runs[0].(pc := Returned(Queued))]
  {
    hide Play, Go, Gos, Recorded, MayAnswer, Step, Window, Trailing, HasOutbound;
    ReachesModel(w, 0, true);
    var w2 := Go(w, 0, 5, true);
    QueuesReply(w2, 0, true);
    var w3 := Go(w2, 0, 3, true);
    var ms := Chatter(HISTORY_WINDOW);
    ChatterIncoming(HISTORY_WINDOW);
    WindowFilled(Thread(w3, 0));
    v := w3.(threads := w3.threads[0 := Thread(w3, 0) + ms]);
    var g3 := Recorded(ms) + rest;
    PlayGos(w, 0, 5, Gos(0, 3) + g3, true);
    PlayGos(w2, 0, 3, g3, true);
    RecordedPlays(w3, ms, rest);
  }

  /** A worker that begins then cannot hand over, and runs the sequence. */
  lemma BeginsUnflagged(w: World, b: Event) returns (end: World)
    requires w.switchOn && 0 !in w.human && Reachable(w, 0) && !HasOutbound(Window(Thread(w, 0))) && 1 !in w.runs
    requires b.Begin? && b.run == 1 && b.path.Worker? && IsHumanInbound(b.message) && b.contact == 0
    requires !b.excluded && b.campaign.None? && b.enrolment == Some(0)
    ensures Play(w, [b] + (Gos(1, 5) + ([Do(1, UNFLAGGED)] + [Do(1, GO)])), true) == end
    ensures 1 in end.runs && end.runs == w.runs[1 := end.runs[1]] && end.runs[1].canned
    ensures var run := end.runs[1];
            && run.message == b.message && run.contact == 0 && run.campaign.None? && run.enrolment == Some(0)
            && run.path.Worker? && run.prior == ReturnedRuns(w, b.message.id)
  {
    hide Play, Go, Gos, Step, Window, Trailing, HasOutbound;
    var w5 := Apply(w, b, true);
    UnflaggedThenCanned(w5, 1);
    var w6 := Go(w5, 1, 5, true);
    var w7 := Step(w6, 1, UNFLAGGED, true);
    assert 1 in w7.runs by { StepSame(w6, Do(1, UNFLAGGED), 1); }
    end := Step(w7, 1, GO, true);
    var tail := [Do(1, UNFLAGGED)] + [Do(1, GO)];
    PlayCons(w, b, Gos(1, 5) + tail, true);
    PlayGos(w5, 1, 5, tail, true);
    PlayDo(w6, 1, UNFLAGGED, [Do(1, GO)]);
    PlayDo(w7, 1, GO, []);
    assert [Do(1, GO)] + [] == [Do(1, GO)];
    PlayNothing(end, true);
  }

  /**
   * The exception in `NeverBoth` happens: the reply is queued and not on record, nothing disturbs the
   * conversation, ten messages fill the window, the handover fails, and the sequence fires as well.
   */
  lemma SwallowedHandover(w: World, message: Message) returns (before: seq<Event>, after: seq<Event>)
    requires Initial(w) && Open(w) && IsHumanInbound(message)
    ensures NoExpiry(before) && NoExpiry(after)
    ensures var mid := Play(w, before, true); var end := Play(mid, after, true);
            && 0 in mid.runs && mid.runs[0].pc.AtSwitch?
            && (forall e :: e in after ==> !Disturbs(e, mid.runs[0]))
            && 0 in end.runs && IsQueued(end.runs[0])
            && WorkerFor(end, 1, message.id) && 0 in end.runs[1].prior && SameTalk(end.runs[1], end.runs[0])
            && end.runs[1].canned
  {
    hide Play, Go, Gos, Recorded, MayAnswer, Step, Window, Trailing, HasOutbound, Disturbs;
    var b0 := Begin(0, Webhook, message, 0, false, None, Some(0));
    var b1 := Begin(1, Worker, message, 0, false, None, Some(0));
    var w1 := Apply(w, b0, true);
    var g4 := [b1] + (Gos(1, 5) + ([Do(1, UNFLAGGED)] + [Do(1, GO)]));
    var ms := Chatter(HISTORY_WINDOW);
    before, after := [b0], Gos(0, 5) + (Gos(0, 3) + (Recorded(ms) + g4));
    PlayCons(w, b0, [], true);
    assert [b0] + [] == [b0];
    PlayNothing(w1, true);
    var v := AnsweredThenFilled(w1, g4);
    var end := BeginsUnflagged(v, b1);
    ChatterIncoming(HISTORY_WINDOW);
    SwallowedIsQuiet(b1, ms, w1.runs[0]);
  }

  lemma SwallowedIsQuiet(b: Event, ms: seq<Message>, run: Run)
    requires b.Begin? && forall i :: 0 <= i < |ms| ==> ms[i].direction == Incoming
    ensures var tail := [Do(1, UNFLAGGED)] + [Do(1, GO)];
            var es := Gos(0, 5) + (Gos(0, 3) + (Recorded(ms) + ([b] + (Gos(1, 5) + tail))));
            NoExpiry(es) && forall e :: e in es ==> !Disturbs(e, run)
  {
    hide Disturbs, Gos, Recorded;
    GosAreQuiet(0, 5, run);
    GosAreQuiet(0, 3, run);
    GosAreQuiet(1, 5, run);
    RecordedIsQuiet(ms, run);
    OthersAreQuiet(b, run);
    GosNoExpiry(0, 5);
    GosNoExpiry(0, 3);
    GosNoExpiry(1, 5);
  }

  lemma OthersAreQuiet(b: Event, run: Run)
    requires b.Begin?
    ensures !Disturbs(b, run) && !Disturbs(Do(1, UNFLAGGED), run) && !Disturbs(Do(1, GO), run)
  {
  }
}
