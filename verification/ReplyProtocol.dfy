/**
 * `maybeAutoReply` as a protocol: any number of runs, from the webhook path and the analysis worker,
 * interleaved at every point where the source waits.
 */
module ReplyProtocol {
  import opened Options
  import opened Decisions

  /** Why a run ended without, or with, a queued reply. */
  datatype Reason =
    | Queued | NotHumanInbound | DisabledGlobally | DisabledForCampaign | OptedOutOrSuppressed
    | HumanTakeover | AlreadyAnswered | LoopGuard | NoReplyGenerated | NoConversationYet | NeedsHuman
    | Error

  /** What a run does next; one value per point where it waits. */
  datatype Pc =
    | AtContact | AtSwitch | AtCampaign | AtEnrolment | AtHistory | AtClaimRead | AtModel
    | AtHandover(reason: Reason) | AtClaim | AtEnqueue
    | Returned(reason: Reason) | Finished(reason: Reason)

  datatype Path = Webhook | Worker

  /**
   * `claimedAtStart` and `prior` are bookkeeping: whether the claim was held, and which runs for the
   * same message had returned, when this run began. `canned` says that the worker ran a canned
   * sequence step.
   */
  datatype Run = Run(
    path: Path, message: Message, contact: nat, excluded: bool, campaign: Option<nat>,
    enrolment: Option<nat>, pc: Pc, claimedAtStart: bool, prior: set<nat>, canned: bool)

  datatype Job = Job(run: nat, inbound: nat)

  datatype World = World(
    switchOn: bool, campaignOff: set<nat>, human: set<nat>, contacts: map<nat, bool>,
    threads: map<nat, seq<Message>>, claims: set<nat>, jobs: seq<Job>, runs: map<nat, Run>)

  datatype Reply = NoReply | Declined | Good
  /**
   * What the surroundings decide for one step: the model's answer, a branch of the sequence that fires,
   * an exception, and whether the update that flags the enrolment for people succeeds.
   */
  datatype Luck = Luck(reply: Reply, fires: bool, throws: bool, flags: bool)

  datatype Event =
    | Begin(run: nat, path: Path, message: Message, contact: nat, excluded: bool,
            campaign: Option<nat>, enrolment: Option<nat>)
    | Do(run: nat, luck: Luck)
    | SetSwitch(on: bool)
    | SetCampaign(target: nat, off: bool)
    | SetMode(target: nat, human: bool)
    | SetContact(contact: nat, state: Option<bool>)
    | Record(contact: nat, message: Message)
    | Expire(claim: nat)

  /** Flag the enrolment for people. A failed update is logged, and nothing is flagged. */
  function HandOver(w: World, run: Run, luck: Luck): set<nat> {
    if run.enrolment.Some? && luck.flags then w.human + {run.enrolment.value} else w.human
  }

  function Thread(w: World, contact: nat): seq<Message> {
    if contact in w.threads then w.threads[contact] else []
  }

  /** The next control point, given that nothing throws. */
  function NextPc(w: World, run: Run, luck: Luck, up: bool): Pc {
    var window := Window(Thread(w, run.contact));
    match run.pc
    case AtContact => if run.contact in w.contacts then AtSwitch else Returned(NotHumanInbound)
    case AtSwitch =>
      if !w.switchOn then Returned(DisabledGlobally)
      else if run.excluded then Returned(OptedOutOrSuppressed)
      else AtCampaign
    case AtCampaign =>
      if run.campaign.Some? && run.campaign.value in w.campaignOff then Returned(DisabledForCampaign)
      else AtEnrolment
    case AtEnrolment =>
      if run.enrolment.Some? && run.enrolment.value in w.human then Returned(HumanTakeover) else AtHistory
    case AtHistory =>
      if !HasOutbound(window) then AtHandover(NoConversationYet)
      else if Trailing(window) >= MAX_CONSECUTIVE_AI_REPLIES then Returned(LoopGuard)
      else AtClaimRead
    case AtClaimRead => if up && run.message.id in w.claims then Returned(AlreadyAnswered) else AtModel
    case AtModel =>
      (match luck.reply
       case NoReply => Returned(NoReplyGenerated)
       case Declined => AtHandover(NeedsHuman)
       case Good => AtClaim)
    case AtHandover(reason) => Returned(reason)
    case AtClaim => if up && run.message.id in w.claims then Returned(AlreadyAnswered) else AtEnqueue
    case AtEnqueue => Returned(Queued)
    case Returned(reason) => Finished(reason)
    case Finished(reason) => Finished(reason)
  }

  /** The contact is on file, and neither opted out nor suppressed. */
  predicate Reachable(w: World, contact: nat) {
    contact in w.contacts && !w.contacts[contact]
  }

  /**
   * The worker runs a sequence step only when the message was neither answered nor claimed, and the
   * sequence itself only for an enrolment left to the automation, of a contact that may be written to.
   */
  predicate RunsSequence(w: World, run: Run, luck: Luck) {
    run.path.Worker? && run.pc.Returned? && run.pc.reason != Queued && run.pc.reason != AlreadyAnswered
    && run.enrolment.Some? && run.enrolment.value !in w.human && Reachable(w, run.contact) && luck.fires
  }

  /** One step of a run. `up` is whether Redis answers; when it does not, no claim is seen or made. */
  function Step(w: World, r: nat, luck: Luck, up: bool): World
    requires r in w.runs
  {
    var run := w.runs[r];
    if run.pc.Finished? then w
    else if luck.throws && !run.pc.Returned? && !run.pc.AtHandover? then
      // The webhook path reports the error; the worker flags the enrolment and fails its job.
      if run.path.Webhook? then w.(runs := w.runs[r := run.(pc := Returned(Error))])
      else w.(human := HandOver(w, run, luck), runs := w.runs[r := run.(pc := Finished(Error))])
    else
      var next := run.(
        pc := NextPc(w, run, luck, up),
        excluded := if run.pc.AtContact? && run.contact in w.contacts then w.contacts[run.contact] else run.excluded,
        canned := run.canned || RunsSequence(w, run, luck));
      w.(
        human := if run.pc.AtHandover? then HandOver(w, run, luck) else w.human,
        claims := if run.pc.AtClaim? && up then w.claims + {run.message.id} else w.claims,
        jobs := if run.pc.AtEnqueue? then w.jobs + [Job(r, run.message.id)] else w.jobs,
        runs := w.runs[r := next])
  }

  /** The runs for `message` that have returned. */
  function ReturnedRuns(w: World, message: nat): set<nat> {
    set a | a in w.runs && w.runs[a].message.id == message && Ended(w.runs[a].pc)
  }

  predicate Ended(pc: Pc) {
    pc.Returned? || pc.Finished?
  }

  function Apply(w: World, e: Event, up: bool): World {
    match e
    case Begin(r, path, m, contact, excluded, campaign, enrolment) =>
      if r in w.runs then w
      else
        var pc :=
          if !IsHumanInbound(m) then Returned(NotHumanInbound)
          else if path.Worker? then AtContact
          else AtSwitch;
        w.(runs := w.runs[r := Run(path, m, contact, excluded, campaign, enrolment, pc,
                                   m.id in w.claims, ReturnedRuns(w, m.id), false)])
    case Do(r, luck) => if r in w.runs then Step(w, r, luck, up) else w
    case SetSwitch(on) => w.(switchOn := on)
    case SetCampaign(c, off) => w.(campaignOff := if off then w.campaignOff + {c} else w.campaignOff - {c})
    case SetMode(cc, human) => w.(human := if human then w.human + {cc} else w.human - {cc})
    case SetContact(c, state) =>
      w.(contacts := if state.Some? then w.contacts[c := state.value] else w.contacts - {c})
    case Record(c, m) => w.(threads := w.threads[c := Thread(w, c) + [m]])
    case Expire(m) => w.(claims := w.claims - {m})
  }

  function Play(w: World, es: seq<Event>, up: bool): World
    decreases |es|
  {
    if es == [] then w else Play(Apply(w, es[0], up), es[1..], up)
  }

  /** Nothing has happened yet; switches, threads and contacts are arbitrary. */
  predicate Initial(w: World) {
    w.claims == {} && w.jobs == [] && w.runs == map[]
  }

  predicate NoExpiry(es: seq<Event>) {
    forall e :: e in es ==> !e.Expire?
  }

  // ---------------------------------------------------------------- the invariant, Redis up

  /** The run owns the right to answer its message. */
  predicate Holds(run: Run) {
    run.pc.AtEnqueue? || (Ended(run.pc) && run.pc.reason == Queued)
  }

  /** The run got past the claim lookup. */
  predicate PastLookup(pc: Pc) {
    pc.AtModel? || pc.AtClaim? || pc.AtEnqueue? || pc == AtHandover(NeedsHuman)
    || (Ended(pc) && (pc.reason == Queued || pc.reason == NoReplyGenerated || pc.reason == NeedsHuman))
  }

  /** What holds of each run by itself. */
  ghost predicate RunOk(w: World, r: nat)
    requires r in w.runs
  {
    var run := w.runs[r];
    && (Holds(run) ==> run.message.id in w.claims)
    && (run.claimedAtStart ==> run.message.id in w.claims && !PastLookup(run.pc))
    && (!IsHumanInbound(run.message) ==> Ended(run.pc) && run.pc.reason == NotHumanInbound)
    && (run.pc.AtHandover? ==> run.pc.reason == NoConversationYet || run.pc.reason == NeedsHuman)
    && (run.canned ==> run.pc.Finished? && run.pc.reason != Queued && run.pc.reason != AlreadyAnswered)
    && (Ended(run.pc) && run.pc.reason == Queued ==> exists k :: 0 <= k < |w.jobs| && w.jobs[k].run == r)
  }

  ghost predicate RunsOk(w: World) {
    forall r :: r in w.runs ==> RunOk(w, r)
  }

  ghost predicate OneHolder(w: World) {
    forall a, b :: (a in w.runs && b in w.runs && Holds(w.runs[a]) && Holds(w.runs[b])
                    && w.runs[a].message.id == w.runs[b].message.id) ==> a == b
  }

  /** Every job was enqueued by a run that returned `queued`, and no run enqueues twice. */
  ghost predicate JobsOk(w: World) {
    && (forall k :: 0 <= k < |w.jobs| ==> JobOk(w, w.jobs[k]))
    && (forall j, k :: 0 <= j < k < |w.jobs| ==> w.jobs[j].run != w.jobs[k].run)
  }

  ghost predicate JobOk(w: World, job: Job) {
    job.run in w.runs && w.runs[job.run].message.id == job.inbound
    && Ended(w.runs[job.run].pc) && w.runs[job.run].pc.reason == Queued
  }

  /** A run that began after an answered one knew of the claim. */
  ghost predicate PriorOk(w: World) {
    forall a, b :: b in w.runs && a in w.runs[b].prior ==>
                     a in w.runs && Ended(w.runs[a].pc) && w.runs[a].message.id == w.runs[b].message.id
                     && (w.runs[a].pc.reason == Queued ==> w.runs[b].claimedAtStart)
  }

  ghost predicate Inv(w: World) {
    RunsOk(w) && OneHolder(w) && JobsOk(w) && PriorOk(w)
  }

  // ---------------------------------------------------------------- every step keeps it

  /** What one step can do to the shared state and to the run that takes it. */
  ghost predicate Effect(w: World, r: nat, next: World)
    requires r in w.runs
  {
    r in next.runs &&
    var run, run' := w.runs[r], next.runs[r];
    var id := run.message.id;
    && next.runs == w.runs[r := run']
    && (next.claims == w.claims || next.claims == w.claims + {id})
    && next.jobs == (if run.pc.AtEnqueue? && IsQueued(run') then w.jobs + [Job(r, id)] else w.jobs)
    && run'.message == run.message && run'.claimedAtStart == run.claimedAtStart && run'.prior == run.prior
    && (IsQueued(run') ==> IsQueued(run) || run.pc.AtEnqueue?)
    && (IsQueued(run) ==> IsQueued(run'))
    && (Ended(run.pc) ==> Ended(run'.pc) && run'.pc.reason == run.pc.reason)
    && (Holds(run') && !Holds(run) ==> run.pc.AtClaim? && id !in w.claims && id in next.claims)
    && (PastLookup(run'.pc) && !PastLookup(run.pc) ==> run.pc.AtClaimRead? && id !in w.claims)
    && (run'.canned && !run.canned ==> run.pc.Returned? && run'.pc.Finished?
                                       && run.pc.reason != Queued && run.pc.reason != AlreadyAnswered)
    && (run.pc.Finished? ==> run' == run)
    && (run'.pc.AtHandover? ==> run'.pc.reason == NoConversationYet || run'.pc.reason == NeedsHuman)
  }

  predicate IsQueued(run: Run) {
    Ended(run.pc) && run.pc.reason == Queued
  }

  /** Where control can go, claim by claim. */
  lemma NextPcFacts(w: World, run: Run, luck: Luck)
    requires run.pc.AtHandover? ==> run.pc.reason == NoConversationYet || run.pc.reason == NeedsHuman
    ensures var pc := NextPc(w, run, luck, true); var id := run.message.id;
            && (pc.AtEnqueue? ==> run.pc.AtClaim? && id !in w.claims)
            && (pc == Returned(Queued) <==> run.pc.AtEnqueue?)
            && (Ended(run.pc) ==> pc == Finished(run.pc.reason))
            && (PastLookup(pc) && !PastLookup(run.pc) ==> run.pc.AtClaimRead? && id !in w.claims)
            && (pc.AtHandover? ==> pc.reason == NoConversationYet || pc.reason == NeedsHuman)
            && (pc.Finished? ==> Ended(run.pc))
  {
    hide Trailing, Window, HasOutbound;
  }

  lemma StepEffect(w: World, r: nat, luck: Luck)
    requires r in w.runs && RunOk(w, r)
    ensures Effect(w, r, Step(w, r, luck, true))
  {
    hide NextPc, RunOk, Effect, Step;
    Handover(w, r);
    if w.runs[r].pc.Finished? {
      FinishedEffect(w, r, luck);
    } else if luck.throws && !w.runs[r].pc.Returned? && !w.runs[r].pc.AtHandover? {
      ThrowEffect(w, r, luck);
    } else {
      MoveEffect(w, r, luck);
    }
  }

  lemma FinishedEffect(w: World, r: nat, luck: Luck)
    requires r in w.runs && w.runs[r].pc.Finished?
    ensures Effect(w, r, Step(w, r, luck, true))
  {
    assert w.runs == w.runs[r := w.runs[r]];
  }

  lemma ThrowEffect(w: World, r: nat, luck: Luck)
    requires r in w.runs && luck.throws && !Ended(w.runs[r].pc) && !w.runs[r].pc.AtHandover?
    ensures Effect(w, r, Step(w, r, luck, true))
  {
    hide PastLookup;
    ErrorsArePlain();
  }

  lemma MoveEffect(w: World, r: nat, luck: Luck)
    requires r in w.runs && !w.runs[r].pc.Finished?
    requires !luck.throws || w.runs[r].pc.Returned? || w.runs[r].pc.AtHandover?
    requires w.runs[r].pc.AtHandover? ==>
               w.runs[r].pc.reason == NoConversationYet || w.runs[r].pc.reason == NeedsHuman
    ensures Effect(w, r, Step(w, r, luck, true))
  {
    hide PastLookup, NextPc, HandOver, IsHumanInbound;
    NextPcFacts(w, w.runs[r], luck);
  }

  lemma ErrorsArePlain()
    ensures !PastLookup(Returned(Error)) && !PastLookup(Finished(Error))
  {
  }

  lemma Handover(w: World, r: nat)
    requires r in w.runs && RunOk(w, r)
    ensures w.runs[r].pc.AtHandover? ==>
              w.runs[r].pc.reason == NoConversationYet || w.runs[r].pc.reason == NeedsHuman
  {
  }

  /** The run that steps stays in order, */
  lemma EffectOnSelf(w: World, r: nat, next: World)
    requires r in w.runs && RunOk(w, r) && Effect(w, r, next)
    ensures RunOk(next, r)
  {
    var run := w.runs[r];
    if IsQueued(run) {
      var k :| 0 <= k < |w.jobs| && w.jobs[k].run == r;
      assert next.jobs[k].run == r;
    } else if IsQueued(next.runs[r]) {
      assert next.jobs[|w.jobs|].run == r;
    }
  }

  /** and so does every other. */
  lemma EffectOnOther(w: World, r: nat, next: World, a: nat)
    requires r in w.runs && a in w.runs && a != r && RunOk(w, a) && Effect(w, r, next)
    ensures a in next.runs && next.runs[a] == w.runs[a] && RunOk(next, a)
  {
    hide Holds, PastLookup;
    if IsQueued(w.runs[a]) {
      var k :| 0 <= k < |w.jobs| && w.jobs[k].run == a;
      assert next.jobs[k].run == a;
    }
  }

  lemma StepKeepsRuns(w: World, r: nat, next: World)
    requires r in w.runs && RunsOk(w) && Effect(w, r, next)
    ensures RunsOk(next)
  {
    hide RunOk;
    forall a | a in next.runs ensures RunOk(next, a) {
      if a == r {
        EffectOnSelf(w, r, next);
      } else {
        EffectOnOther(w, r, next, a);
      }
    }
  }

  lemma StepKeepsHolder(w: World, r: nat, next: World)
    requires r in w.runs && RunsOk(w) && OneHolder(w) && Effect(w, r, next)
    ensures OneHolder(next)
  {
    hide PastLookup, Holds;
    forall a | a in w.runs && a != r && Holds(w.runs[a]) && w.runs[a].message.id == w.runs[r].message.id
      ensures !Holds(next.runs[r])
    {
      assert RunOk(w, a) && RunOk(w, r);
    }
  }

  lemma StepKeepsJobs(w: World, r: nat, next: World)
    requires r in w.runs && JobsOk(w) && Effect(w, r, next)
    ensures JobsOk(next)
  {
    hide PastLookup, Holds;
    forall k | 0 <= k < |next.jobs| ensures JobOk(next, next.jobs[k]) {
      if k < |w.jobs| {
        assert JobOk(w, w.jobs[k]);
      }
    }
    if next.jobs != w.jobs {
      forall k | 0 <= k < |w.jobs| ensures w.jobs[k].run != r {
        assert JobOk(w, w.jobs[k]);
      }
    }
  }

  lemma StepKeepsPrior(w: World, r: nat, next: World)
    requires r in w.runs && PriorOk(w) && Effect(w, r, next)
    ensures PriorOk(next)
  {
    hide PastLookup, Holds;
    forall a, b | b in next.runs && a in next.runs[b].prior
      ensures a in next.runs && Ended(next.runs[a].pc) && next.runs[a].message.id == next.runs[b].message.id
              && (next.runs[a].pc.reason == Queued ==> next.runs[b].claimedAtStart)
    {
      assert b in w.runs && a in w.runs[b].prior;
    }
  }

  /** A new run changes no claim and no job, and knows the claims of the runs before it. */
  lemma BeginKeeps(w: World, e: Event)
    requires e.Begin? && Inv(w)
    ensures Inv(Apply(w, e, true))
  {
    if e.run !in w.runs {
      BeginShape(w, e);
      BeginKeepsRuns(w, e);
      BeginKeepsRest(w, e);
    }
  }

  lemma BeginShape(w: World, e: Event)
    requires e.Begin? && e.run !in w.runs
    ensures var next := Apply(w, e, true);
            && e.run in next.runs && next.runs == w.runs[e.run := next.runs[e.run]]
            && next.jobs == w.jobs && next.claims == w.claims
            && var run := next.runs[e.run];
               && !Holds(run) && !PastLookup(run.pc) && !run.canned && !run.pc.AtHandover? && run.message == e.message
               && (run.claimedAtStart <==> e.message.id in w.claims) && run.prior == ReturnedRuns(w, e.message.id)
               && (!IsHumanInbound(e.message) ==> run.pc == Returned(NotHumanInbound))
               && (Ended(run.pc) ==> run.pc == Returned(NotHumanInbound))
  {
  }

  lemma BeginKeepsRuns(w: World, e: Event)
    requires e.Begin? && e.run !in w.runs && RunsOk(w)
    ensures RunsOk(Apply(w, e, true))
  {
    hide Apply, PastLookup, Holds;
    BeginShape(w, e);
    var next := Apply(w, e, true);
    forall a | a in next.runs ensures RunOk(next, a) {
      if a in w.runs {
        assert RunOk(w, a);
        assert next.runs[a] == w.runs[a];
      }
    }
  }

  lemma BeginKeepsRest(w: World, e: Event)
    requires e.Begin? && e.run !in w.runs && Inv(w)
    ensures var next := Apply(w, e, true); OneHolder(next) && JobsOk(next) && PriorOk(next)
  {
    hide Apply, PastLookup;
    BeginShape(w, e);
    var next := Apply(w, e, true);
    forall k | 0 <= k < |next.jobs| ensures JobOk(next, next.jobs[k]) {
      assert JobOk(w, w.jobs[k]);
    }
    forall a | a in ReturnedRuns(w, e.message.id) && w.runs[a].pc.reason == Queued
      ensures e.message.id in w.claims
    {
      assert RunOk(w, a);
      assert Holds(w.runs[a]);
    }
  }

  lemma ElseKeeps(w: World, e: Event)
    requires !e.Begin? && !e.Do? && !e.Expire? && Inv(w)
    ensures Inv(Apply(w, e, true))
  {
    var next := Apply(w, e, true);
    assert next.runs == w.runs && next.jobs == w.jobs && next.claims == w.claims;
    forall a | a in next.runs ensures RunOk(next, a) {
      assert RunOk(w, a);
    }
    forall k | 0 <= k < |w.jobs| ensures JobOk(next, next.jobs[k]) {
      assert JobOk(w, w.jobs[k]);
    }
  }

  lemma DoKeeps(w: World, r: nat, luck: Luck)
    requires Inv(w) && r in w.runs
    ensures Inv(Step(w, r, luck, true))
  {
    hide Step, Effect, RunOk, OneHolder, JobsOk, PriorOk;
    var next := Step(w, r, luck, true);
    StepEffect(w, r, luck);
    StepKeepsRuns(w, r, next);
    StepKeepsHolder(w, r, next);
    StepKeepsJobs(w, r, next);
    StepKeepsPrior(w, r, next);
  }

  lemma ApplyKeeps(w: World, e: Event)
    requires Inv(w) && !e.Expire?
    ensures Inv(Apply(w, e, true))
  {
    hide Inv, Step;
    if e.Begin? {
      BeginKeeps(w, e);
    } else if e.Do? {
      if e.run in w.runs {
        DoKeeps(w, e.run, e.luck);
      }
    } else {
      ElseKeeps(w, e);
    }
  }

  lemma {:induction false} PlayKeeps(w: World, es: seq<Event>)
    requires Inv(w) && NoExpiry(es)
    ensures Inv(Play(w, es, true))
    decreases |es|
  {
    hide Inv, Apply;
    if es != [] {
      ApplyKeeps(w, es[0]);
      PlayKeeps(Apply(w, es[0], true), es[1..]);
    }
  }

  // ---------------------------------------------------------------- the theorems

  /**
   * Redis up, no claim expired: whatever the interleaving, every job answers a message written by a
   * person, the one its run was started for, and no two jobs answer the same message.
   */
  lemma AtMostOneReply(w: World, es: seq<Event>, k: nat)
    requires Initial(w) && NoExpiry(es) && k < |Play(w, es, true).jobs|
    ensures var end := Play(w, es, true); var job := end.jobs[k];
            && job.run in end.runs && end.runs[job.run].message.id == job.inbound
            && IsHumanInbound(end.runs[job.run].message)
            && forall j :: 0 <= j < |end.jobs| && end.jobs[j].inbound == job.inbound ==> j == k
  {
    PlayKeeps(w, es);
    var end := Play(w, es, true);
    var job := end.jobs[k];
    assert JobOk(end, job) && RunOk(end, job.run);
    forall j | 0 <= j < |end.jobs| && end.jobs[j].inbound == job.inbound ensures j == k {
      assert JobOk(end, end.jobs[j]) && RunOk(end, end.jobs[j].run);
    }
  }

  predicate HasJob(w: World, message: nat) {
    exists k :: 0 <= k < |w.jobs| && w.jobs[k].inbound == message
  }

  /** A run that queued its reply has its job. */
  lemma QueuedHasJob(w: World, a: nat)
    requires Inv(w) && a in w.runs && IsQueued(w.runs[a])
    ensures HasJob(w, w.runs[a].message.id)
  {
    assert RunOk(w, a);
    var k :| 0 <= k < |w.jobs| && w.jobs[k].run == a;
    assert JobOk(w, w.jobs[k]);
  }

  // ---------------------------------------------------------------- what the hypotheses are for

  const GO := Luck(Good, true, false, true)

  /** `n` steps of run `r`, uninterrupted, the model answering and the sequence firing. */
  function Go(w: World, r: nat, n: nat, up: bool): World
    decreases n
  {
    if n == 0 || r !in w.runs then w else Go(Step(w, r, GO, up), r, n - 1, up)
  }

  function Gos(r: nat, n: nat): seq<Event> {
    if n == 0 then [] else [Do(r, GO)] + Gos(r, n - 1)
  }

  lemma PlayCons(w: World, e: Event, es: seq<Event>, up: bool)
    ensures Play(w, [e] + es, up) == Play(Apply(w, e, up), es, up)
  {
    assert ([e] + es)[1..] == es;
  }

  lemma {:induction false} PlayGos(w: World, r: nat, n: nat, es: seq<Event>, up: bool)
    requires r in w.runs
    ensures Play(w, Gos(r, n) + es, up) == Play(Go(w, r, n, up), es, up)
    decreases n
  {
    hide Play;
    if n == 0 {
      assert Gos(r, n) + es == es;
    } else {
      var next := Step(w, r, GO, up);
      assert r in next.runs;
      PlayGos(next, r, n - 1, es, up);
      assert Gos(r, n) + es == [Do(r, GO)] + (Gos(r, n - 1) + es);
      PlayCons(w, Do(r, GO), Gos(r, n - 1) + es, up);
    }
  }

  lemma {:induction false} GosNoExpiry(r: nat, n: nat)
    ensures NoExpiry(Gos(r, n))
  {
    if n > 0 {
      GosNoExpiry(r, n - 1);
    }
  }

  /** A world in which nothing stops a reply to contact 0, enrolled as 0. */
  predicate Open(w: World) {
    w.switchOn && 0 !in w.human && 0 in w.contacts && !w.contacts[0] && MayAnswer(Thread(w, 0))
  }

  /** A fresh run for that contact, at the first guard. */
  predicate AtStart(run: Run) {
    run.pc.AtSwitch? && !run.excluded && run.contact == 0 && run.campaign.None? && run.enrolment == Some(0)
  }

  /** `w` with run `r` at `pc`. */
  function At(w: World, r: nat, pc: Pc): World
    requires r in w.runs
  {
    w.(runs := w.runs[r := w.runs[r].(pc := pc)])
  }

  /** A step that only moves control. */
  lemma Move(w: World, r: nat, pc: Pc, pc': Pc, n: nat, up: bool)
    requires r in w.runs
    requires pc == AtSwitch || pc == AtCampaign || pc == AtEnrolment || pc == AtHistory || pc == AtClaimRead
             || pc == AtModel
    requires NextPc(w, w.runs[r].(pc := pc), GO, up) == pc'
    ensures Go(At(w, r, pc), r, n + 1, up) == Go(At(w, r, pc'), r, n, up)
  {
    hide NextPc;
    var run := w.runs[r].(pc := pc);
    var v := At(w, r, pc);
    assert v.runs[r] == run;
    assert NextPc(v, run, GO, up) == pc' by { NextPcLocal(w, v, run, up); }
    assert v.runs[r := run.(pc := pc')] == At(w, r, pc').runs;
  }

  /** Control does not depend on the other runs. */
  lemma NextPcLocal(w: World, v: World, run: Run, up: bool)
    requires v == w.(runs := v.runs)
    ensures NextPc(v, run, GO, up) == NextPc(w, run, GO, up)
  {
  }

  /** The run goes as far as the model when it sees no claim. */
  lemma ReachesModel(w: World, r: nat, up: bool)
    requires Open(w) && r in w.runs && AtStart(w.runs[r]) && (up ==> w.runs[r].message.id !in w.claims)
    ensures Go(w, r, 5, up) == At(w, r, AtModel)
  {
    hide MayAnswer, Window, Trailing, HasOutbound, Go, At;
    GuardsOpen(w);
    AtItself(w, r);
    Move(w, r, AtSwitch, AtCampaign, 4, up);
    Move(w, r, AtCampaign, AtEnrolment, 3, up);
    Move(w, r, AtEnrolment, AtHistory, 2, up);
    Move(w, r, AtHistory, AtClaimRead, 1, up);
    Move(w, r, AtClaimRead, AtModel, 0, up);
    GoNowhere(At(w, r, AtModel), r, up);
  }

  lemma AtItself(w: World, r: nat)
    requires r in w.runs
    ensures At(w, r, w.runs[r].pc) == w
  {
    assert w.runs[r := w.runs[r]] == w.runs;
  }

  lemma GoNowhere(w: World, r: nat, up: bool)
    ensures Go(w, r, 0, up) == w
  {
  }

  lemma GuardsOpen(w: World)
    requires Open(w)
    ensures var window := Window(Thread(w, 0));
            HasOutbound(window) && Trailing(window) < MAX_CONSECUTIVE_AI_REPLIES
  {
  }

  /** From the model a run that sees no claim queues its reply. */
  lemma QueuesReply(w: World, r: nat, up: bool)
    requires r in w.runs && w.runs[r].pc == AtModel && (up ==> w.runs[r].message.id !in w.claims)
    ensures var id := w.runs[r].message.id;
            Go(w, r, 3, up) == At(w, r, Returned(Queued)).(
                                 claims := if up then w.claims + {id} else w.claims,
                                 jobs := w.jobs + [Job(r, id)])
  {
    hide Go;
    AtItself(w, r);
    Move(w, r, AtModel, AtClaim, 2, up);
    Claims(w, r, up);
    var id := w.runs[r].message.id;
    Enqueues(At(w, r, AtEnqueue).(claims := if up then w.claims + {id} else w.claims), r, up);
  }

  lemma Claims(w: World, r: nat, up: bool)
    requires r in w.runs && (up ==> w.runs[r].message.id !in w.claims)
    ensures var id := w.runs[r].message.id;
            Go(At(w, r, AtClaim), r, 2, up)
            == Go(At(w, r, AtEnqueue).(claims := if up then w.claims + {id} else w.claims), r, 1, up)
  {
    var v := At(w, r, AtClaim);
    assert v.runs[r := v.runs[r].(pc := AtEnqueue)] == At(w, r, AtEnqueue).runs;
  }

  lemma Enqueues(w: World, r: nat, up: bool)
    requires r in w.runs && w.runs[r].pc == AtEnqueue
    ensures Go(w, r, 1, up) == At(w, r, Returned(Queued)).(jobs := w.jobs + [Job(r, w.runs[r].message.id)])
  {
    var next := Step(w, r, GO, up);
    assert Go(next, r, 0, up) == next;
  }

  /** With Redis down two concurrent runs for one message both queue a reply. */
  lemma DownAnswersTwice(w: World, message: Message) returns (es: seq<Event>)
    requires Initial(w) && Open(w) && IsHumanInbound(message)
    ensures NoExpiry(es)
    ensures var end := Play(w, es, false);
            |end.jobs| == 2 && end.jobs[0].inbound == end.jobs[1].inbound == message.id
  {
    hide Play, Go, MayAnswer, Step;
    var begin := (r: nat) => Begin(r, Webhook, message, 0, false, None, Some(0));
    var w1 := Apply(w, begin(0), false);
    var w2 := Apply(w1, begin(1), false);
    ReachesModel(w2, 0, false);
    var w3 := Go(w2, 0, 5, false);
    ReachesModel(w3, 1, false);
    var w4 := Go(w3, 1, 5, false);
    QueuesReply(w4, 0, false);
    var w5 := Go(w4, 0, 3, false);
    QueuesReply(w5, 1, false);
    var w6 := Go(w5, 1, 3, false);
    var e1 := Gos(1, 3);
    var e0 := Gos(0, 3) + e1;
    var d1 := Gos(1, 5) + e0;
    var d0 := Gos(0, 5) + d1;
    es := [begin(0)] + ([begin(1)] + d0);
    PlayCons(w, begin(0), [begin(1)] + d0, false);
    PlayCons(w1, begin(1), d0, false);
    PlayGos(w2, 0, 5, d1, false);
    PlayGos(w3, 1, 5, e0, false);
    PlayGos(w4, 0, 3, e1, false);
    PlayGos(w5, 1, 3, [], false);
    assert e1 + [] == e1;
    PlayNothing(w6, false);
    GosNoExpiry(0, 3);
    GosNoExpiry(1, 3);
    GosNoExpiry(0, 5);
    GosNoExpiry(1, 5);
  }

  lemma PlayNothing(w: World, up: bool)
    ensures Play(w, [], up) == w
  {
  }

  /** A worker that finds the reply on record stops at the loop guard and runs the sequence. */
  lemma LoopGuardThenSequence(w: World, r: nat)
    requires r in w.runs && w.switchOn && 0 !in w.human && 0 in w.contacts && !w.contacts[0]
    requires HasOutbound(Window(Thread(w, 0))) && Trailing(Window(Thread(w, 0))) >= MAX_CONSECUTIVE_AI_REPLIES
    requires var run := w.runs[r];
             run.path.Worker? && run.pc.AtContact? && run.contact == 0 && run.campaign.None?
             && run.enrolment == Some(0) && !run.excluded
    ensures var run := w.runs[r];
            Go(w, r, 6, true) == w.(runs := w.runs[r := run.(pc := Finished(LoopGuard), canned := true)])
  {
    hide Window, Trailing, HasOutbound, Go, At;
    LooksUpContact(w, r);
    Move(w, r, AtSwitch, AtCampaign, 4, true);
    Move(w, r, AtCampaign, AtEnrolment, 3, true);
    Move(w, r, AtEnrolment, AtHistory, 2, true);
    Move(w, r, AtHistory, Returned(LoopGuard), 1, true);
    FiresSequence(w, r);
  }

  lemma LooksUpContact(w: World, r: nat)
    requires r in w.runs && w.runs[r].pc == AtContact && w.runs[r].contact in w.contacts
    requires w.contacts[w.runs[r].contact] == w.runs[r].excluded
    ensures Go(w, r, 6, true) == Go(At(w, r, AtSwitch), r, 5, true)
  {
    assert Step(w, r, GO, true) == At(w, r, AtSwitch);
  }

  lemma FiresSequence(w: World, r: nat)
    requires r in w.runs && w.runs[r].path.Worker? && w.runs[r].enrolment == Some(0) && 0 !in w.human
    requires w.runs[r].contact == 0 && Reachable(w, 0)
    ensures Go(At(w, r, Returned(LoopGuard)), r, 1, true)
            == w.(runs := w.runs[r := w.runs[r].(pc := Finished(LoopGuard), canned := true)])
  {
    var v := At(w, r, Returned(LoopGuard));
    var next := Step(v, r, GO, true);
    assert next.runs == w.runs[r := w.runs[r].(pc := Finished(LoopGuard), canned := true)];
    assert Go(next, r, 0, true) == next;
  }

  /** The webhook path queues a reply, which is then sent and recorded. */
  lemma AnswerThenRecord(w: World, message: Message) returns (es: seq<Event>, v: World)
    requires Initial(w) && Open(w) && IsHumanInbound(message)
    ensures NoExpiry(es) && Play(w, es, true) == v
    ensures v.switchOn && 0 !in v.human && 0 in v.contacts && !v.contacts[0]
    ensures v.jobs == [Job(0, message.id)] && v.runs.Keys == {0}
    ensures v.runs[0].pc == Returned(Queued) && v.runs[0].message == message
    ensures HasOutbound(Window(Thread(v, 0))) && Trailing(Window(Thread(v, 0))) >= MAX_CONSECUTIVE_AI_REPLIES
  {
    hide Play, Go, MayAnswer, Step, Window, Trailing, HasOutbound;
    var b0 := Begin(0, Webhook, message, 0, false, None, Some(0));
    var w1 := Apply(w, b0, true);
    ReachesModel(w1, 0, true);
    var w2 := Go(w1, 0, 5, true);
    QueuesReply(w2, 0, true);
    var w3 := Go(w2, 0, 3, true);
    var reply := Record(0, Message(message.id + 1, Outgoing, true));
    v := Apply(w3, reply, true);
    RecordedIsTrailing(Thread(w3, 0), reply.message);
    var g := Gos(0, 3) + [reply];
    es := [b0] + (Gos(0, 5) + g);
    PlayCons(w, b0, Gos(0, 5) + g, true);
    PlayGos(w1, 0, 5, g, true);
    PlayGos(w2, 0, 3, [reply], true);
    PlayCons(w3, reply, [], true);
    assert [reply] + [] == [reply];
    PlayNothing(v, true);
    GosNoExpiry(0, 5);
    GosNoExpiry(0, 3);
  }

  /**
   * When the queued reply is sent and recorded before the worker starts, the loop guard fires before the
   * claim is looked up, and the prospect gets a reply and a canned step.
   */
  lemma RecordedReplyRunsSequence(w: World, message: Message) returns (es: seq<Event>)
    requires Initial(w) && Open(w) && IsHumanInbound(message)
    ensures NoExpiry(es)
    ensures var end := Play(w, es, true);
            HasJob(end, message.id) && 1 in end.runs && end.runs[1].canned && 0 in end.runs[1].prior
  {
    hide Play, Go, MayAnswer, Step, Window, Trailing, HasOutbound;
    var ds, v := AnswerThenRecord(w, message);
    var b1 := Begin(1, Worker, message, 0, false, None, Some(0));
    var v1 := Apply(v, b1, true);
    LoopGuardThenSequence(v1, 1);
    var v2 := Go(v1, 1, 6, true);
    assert v2.jobs[0].inbound == message.id;
    var f := Gos(1, 6);
    es := ds + ([b1] + f);
    PlayConcat(w, ds, [b1] + f, true);
    PlayCons(v, b1, f, true);
    PlayGos(v1, 1, 6, [], true);
    assert f + [] == f;
    PlayNothing(v2, true);
    GosNoExpiry(1, 6);
  }

  lemma {:induction false} PlayConcat(w: World, es: seq<Event>, fs: seq<Event>, up: bool)
    ensures Play(w, es + fs, up) == Play(Play(w, es, up), fs, up)
    decreases |es|
  {
    hide Apply;
    if es == [] {
      assert es + fs == fs;
    } else {
      assert (es + fs)[1..] == es[1..] + fs;
      PlayConcat(Apply(w, es[0], up), es[1..], fs, up);
    }
  }

  /** Right after a message of ours the loop guard is closed. */
  lemma RecordedIsTrailing(thread: seq<Message>, m: Message)
    requires m.direction == Outgoing
    ensures var window := Window(thread + [m]);
            HasOutbound(window) && Trailing(window) >= MAX_CONSECUTIVE_AI_REPLIES
  {
    var window := Window(thread + [m]);
    assert window[|window| - 1] == m;
  }
}
