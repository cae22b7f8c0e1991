/** What the business rules leave of an enrolment, a contact and a campaign's counters after any run. */
module Enrolments {
  import opened Options
  import opened Decisions
  import opened Pipeline

  /** The analysis puts the conversation into the hands of people. */
  predicate HandsOver(a: Analysis) {
    !a.optOut && if Qualifies(a) then a.needsHuman || a.interest.High? else a.confidence < 0.5
  }

  /** The event takes enrolment `id` from the automation. */
  predicate Takes(e: Event, id: nat) {
    (e.Failure? || (e.Rules? && HandsOver(e.analysis))) && e.ctx.enrolment == Some(id)
  }

  /** An ordinary answer: nothing to hand over, no wish to stop and no refusal. */
  predicate IsAnswer(a: Analysis) {
    !a.optOut && !Qualifies(a) && a.confidence >= 0.5 && !a.intent.NotInterestedIntent?
  }

  /** The status the event gives enrolment `id`, if any. */
  function Sets(e: Event, id: nat): Option<Standing> {
    if !e.Rules? || e.ctx.enrolment != Some(id) then None
    else
      var a := e.analysis;
      if a.optOut then Some(Standing.OptedOut)
      else if HandsOver(a) then (if Qualifies(a) then Some(HumanTakeover) else None)
      else if Qualifies(a) then None
      else Some(Replied)
  }

  lemma StepOnEnrolment(crm: Crm, e: Event, id: nat)
    requires id in crm.enrolments
    ensures var crm' := Apply(crm, e);
            && id in crm'.enrolments
            && (crm'.enrolments[id].human <==> crm.enrolments[id].human || Takes(e, id))
            && crm'.enrolments[id].standing
               == if Sets(e, id).Some? then Sets(e, id).value else crm.enrolments[id].standing
  {
    if e.Rules? {
      LeadRulesFrame(crm, e.ctx, e.analysis);
      hide LeadRules;
    }
  }

  lemma LeadRulesFrame(crm: Crm, ctx: Context, a: Analysis)
    ensures var crm' := LeadRules(crm, ctx, a);
            && crm'.enrolments == crm.enrolments && crm'.optedOut == crm.optedOut
            && crm'.stats.replied == crm.stats.replied && crm'.stats.optOuts == crm.stats.optOuts
  {
  }

  /** Over any run an enrolment is with people exactly when it was, or an event took it there. */
  lemma {:induction false} HandedOverExactly(crm: Crm, es: seq<Event>, id: nat)
    requires id in crm.enrolments
    ensures var end := Play(crm, es).enrolments;
            && id in end
            && (end[id].human <==> crm.enrolments[id].human || exists e :: e in es && Takes(e, id))
    decreases |es|
  {
    hide Apply, Takes;
    if es != [] {
      var e, rest := es[0], es[1..];
      StepOnEnrolment(crm, e, id);
      HandedOverExactly(Apply(crm, e), rest, id);
      assert es == [e] + rest;
    }
  }

  /** Its status is the one set last, or else the one it had. */
  function Latest(es: seq<Event>, id: nat, before: Standing): Standing
    decreases |es|
  {
    if es == [] then before
    else
      var e := es[|es| - 1];
      if Sets(e, id).Some? then Sets(e, id).value else Latest(es[..|es| - 1], id, before)
  }

  lemma {:induction false} PlayLast(crm: Crm, es: seq<Event>)
    requires es != []
    ensures var n := |es| - 1; Play(crm, es) == Apply(Play(crm, es[..n]), es[n])
    decreases |es|
  {
    hide Apply;
    if |es| > 1 {
      PlayLast(Apply(crm, es[0]), es[1..]);
      assert es[1..][..|es| - 2] == es[..|es| - 1][1..];
    }
  }

  lemma {:induction false} StandingIsLatest(crm: Crm, es: seq<Event>, id: nat)
    requires id in crm.enrolments
    ensures var end := Play(crm, es).enrolments;
            id in end && end[id].standing == Latest(es, id, crm.enrolments[id].standing)
    decreases |es|
  {
    hide Apply, Sets;
    if es != [] {
      var n := |es| - 1;
      StandingIsLatest(crm, es[..n], id);
      PlayLast(crm, es);
      StepOnEnrolment(Play(crm, es[..n]), es[n], id);
    }
  }

  /** So a wish to stop does not stay visible in the status, though the contact stays excluded. */
  lemma StopIsOverwritten(crm: Crm, ctx: Context, stop: Analysis, answer: Analysis)
    requires ctx.enrolment.Some? && ctx.enrolment.value in crm.enrolments
    requires stop.optOut && IsAnswer(answer)
    ensures var end := Play(crm, [Rules(ctx, stop), Rules(ctx, answer)]);
            && ctx.contact in end.optedOut
            && ctx.enrolment.value in end.enrolments && end.enrolments[ctx.enrolment.value].standing == Replied
  {
    hide Apply, Play, Qualifies;
    var es := [Rules(ctx, stop), Rules(ctx, answer)];
    StandingIsLatest(crm, es, ctx.enrolment.value);
    ExcludedExactly(crm, es, ctx.contact);
    assert es[0] in es;
  }

  lemma StepOnContact(crm: Crm, e: Event, contact: nat)
    ensures contact in Apply(crm, e).optedOut
            <==> contact in crm.optedOut || (e.Rules? && e.analysis.optOut && e.ctx.contact == contact)
  {
    if e.Rules? {
      LeadRulesFrame(crm, e.ctx, e.analysis);
      hide LeadRules;
    }
  }

  /** Over any run a contact is excluded exactly when it was, or asked to stop; no event readmits it. */
  lemma {:induction false} ExcludedExactly(crm: Crm, es: seq<Event>, contact: nat)
    ensures contact in Play(crm, es).optedOut
            <==> contact in crm.optedOut
                 || exists e :: e in es && e.Rules? && e.analysis.optOut && e.ctx.contact == contact
    decreases |es|
  {
    hide Apply;
    if es != [] {
      var e, rest := es[0], es[1..];
      StepOnContact(crm, e, contact);
      ExcludedExactly(Apply(crm, e), rest, contact);
      assert es == [e] + rest;
    }
  }

  // ---------------------------------------------------------------- the counters

  /** How many analyses of the run make campaign `c` count an answer, or an opt-out. */
  function Tally(es: seq<Event>, c: nat, stops: bool): nat
    decreases |es|
  {
    if es == [] then 0
    else
      var e := es[0];
      (if e.Rules? && e.ctx.campaign == Some(c) && (if stops then e.analysis.optOut else IsAnswer(e.analysis))
       then 1 else 0) + Tally(es[1..], c, stops)
  }

  lemma StepOnStats(crm: Crm, e: Event, c: nat)
    ensures var stats, stats' := crm.stats, Apply(crm, e).stats;
            && (c in stats.replied ==>
                  c in stats'.replied && stats'.replied[c] == stats.replied[c] + Tally([e], c, false))
            && (c in stats.optOuts ==>
                  c in stats'.optOuts && stats'.optOuts[c] == stats.optOuts[c] + Tally([e], c, true))
  {
    assert [e][1..] == [];
    if e.Rules? {
      LeadRulesFrame(crm, e.ctx, e.analysis);
      hide LeadRules;
    }
  }

  lemma TallyCons(e: Event, es: seq<Event>, c: nat, stops: bool)
    ensures Tally([e] + es, c, stops) == Tally([e], c, stops) + Tally(es, c, stops)
  {
    assert ([e] + es)[1..] == es && [e][1..] == [];
  }

  /** Over any run the counters of a campaign grow by the analyses of each kind, one by one. */
  lemma {:induction false} CountersTally(crm: Crm, es: seq<Event>, c: nat)
    requires c in crm.stats.replied && c in crm.stats.optOuts
    ensures var end := Play(crm, es).stats;
            && c in end.replied && end.replied[c] == crm.stats.replied[c] + Tally(es, c, false)
            && c in end.optOuts && end.optOuts[c] == crm.stats.optOuts[c] + Tally(es, c, true)
    decreases |es|
  {
    hide Apply, Tally;
    if es != [] {
      var e, rest := es[0], es[1..];
      StepOnStats(crm, e, c);
      CountersTally(Apply(crm, e), rest, c);
      assert es == [e] + rest;
      TallyCons(e, rest, c, false);
      TallyCons(e, rest, c, true);
    } else {
      TallyNone(c);
    }
  }

  lemma TallyNone(c: nat)
    ensures Tally([], c, false) == 0 && Tally([], c, true) == 0
  {
  }

  /** So opt-outs are counted by message: one contact that asks twice is counted twice. */
  lemma OptOutsCountMessages(crm: Crm, ctx: Context, stop: Analysis)
    requires ctx.campaign.Some? && ctx.campaign.value in crm.stats.replied && ctx.campaign.value in crm.stats.optOuts
    requires stop.optOut
    ensures var c := ctx.campaign.value; var end := Play(crm, [Rules(ctx, stop), Rules(ctx, stop)]);
            && c in end.stats.optOuts && end.stats.optOuts[c] == crm.stats.optOuts[c] + 2
            && forall k :: k in end.optedOut <==> k in crm.optedOut || k == ctx.contact
  {
    hide Apply, Play;
    var e := Rules(ctx, stop);
    var es := [e, e];
    assert es == [e] + [e];
    CountersTally(crm, es, ctx.campaign.value);
    TallyCons(e, [e], ctx.campaign.value, true);
    assert [e][1..] == [];
    forall k ensures k in Play(crm, es).optedOut <==> k in crm.optedOut || k == ctx.contact {
      ExcludedExactly(crm, es, k);
      assert es[0] in es;
    }
  }
}
