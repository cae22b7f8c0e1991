/** What the inbound pipeline writes to leads and deals, event by event, and what a campaign's count of leads counts. */
module LeadRuns {
  import opened Options
  import opened Decisions
  import opened Pipeline

  ghost predicate NoLead(crm: Crm, contact: nat) {
    forall i :: 0 <= i < |crm.leads| ==> crm.leads[i].contact != contact
  }

  /** `i` is the contact's earliest lead. */
  ghost predicate Earliest(crm: Crm, contact: nat, i: nat) {
    i < |crm.leads| && crm.leads[i].contact == contact
    && forall j :: 0 <= j < i ==> crm.leads[j].contact != contact
  }

  lemma Found(crm: Crm, contact: nat)
    ensures NoLead(crm, contact) ==> FindLead(crm.leads, contact) == None
    ensures forall i: nat :: Earliest(crm, contact, i) ==> FindLead(crm.leads, contact) == Some(i)
  {
    forall i: nat | Earliest(crm, contact, i) ensures FindLead(crm.leads, contact) == Some(i) {
      EarliestIs(crm.leads, contact, i);
    }
  }

  // ---------------------------------------------------------------- a human message

  /** The first human message makes the contact a lead, engaged and counted; a later one only fills in links. */
  lemma ReplyWrites(crm: Crm, ctx: Context, i: nat)
    ensures var crm' := Apply(crm, Reply(ctx));
            && crm'.deals == crm.deals && crm'.optedOut == crm.optedOut && crm'.enrolments == crm.enrolments
            && (!IsHumanInbound(ctx.message) ==> crm' == crm)
            && (IsHumanInbound(ctx.message) && NoLead(crm, ctx.contact) ==>
                  crm'.leads == crm.leads + [Lead(ctx.contact, ctx.campaign, ctx.enrolment, ctx.company, Engaged)]
                  && crm'.stats == CountLead(crm.stats, ctx.campaign))
            && (IsHumanInbound(ctx.message) && Earliest(crm, ctx.contact, i) ==>
                  crm'.stats == crm.stats && |crm'.leads| == |crm.leads|
                  && (forall j :: 0 <= j < |crm.leads| && j != i ==> crm'.leads[j] == crm.leads[j])
                  && Filled(crm.leads[i], crm'.leads[i], ctx))
  {
    hide IsHumanInbound, NoLead, Earliest;
    Found(crm, ctx.contact);
  }

  /** Links the lead had are kept, links it lacked are the message's, and its status is the same. */
  predicate Filled(lead: Lead, lead': Lead, ctx: Context) {
    && lead'.contact == lead.contact && lead'.status == lead.status
    && lead'.campaign == (if lead.campaign.None? then ctx.campaign else lead.campaign)
    && lead'.enrolment == (if lead.enrolment.None? then ctx.enrolment else lead.enrolment)
    && lead'.company == (if lead.company.None? then ctx.company else lead.company)
  }

  // ---------------------------------------------------------------- an analysis

  /**
   * High interest makes a lead interested, medium interest engaged, given confidence; a lead that is
   * further along keeps its status.
   */
  lemma RulesWrite(crm: Crm, ctx: Context, a: Analysis, i: nat)
    ensures var crm' := Apply(crm, Rules(ctx, a));
            var qualifies := !a.optOut && (a.interest == High || a.interest == Medium) && a.confidence >= 0.7;
            && crm'.deals == crm.deals
            && (!qualifies ==> crm'.leads == crm.leads && crm'.stats.leads == crm.stats.leads)
            && (qualifies && NoLead(crm, ctx.contact) ==>
                  crm'.leads == crm.leads + [Lead(ctx.contact, ctx.campaign, ctx.enrolment, None,
                                                  if a.interest == High then Interested else Engaged)]
                  && crm'.stats.leads == Increment(crm.stats.leads, ctx.campaign))
            && (qualifies && Earliest(crm, ctx.contact, i) ==>
                  crm'.stats.leads == crm.stats.leads
                  && crm'.leads == crm.leads[i := crm.leads[i].(status := Raised(crm.leads[i].status, a.interest))])
  {
    hide NoLead, Earliest, StandingRules;
    Found(crm, ctx.contact);
    StandingRulesFrame(LeadRules(crm, ctx, a), ctx, a);
  }

  function Raised(s: LeadStatus, interest: Interest): LeadStatus {
    match s
    case New => if interest == High then Interested else Engaged
    case Contacted => if interest == High then Interested else Engaged
    case Engaged => if interest == High then Interested else Engaged
    case _ => s
  }

  // ---------------------------------------------------------------- a conversation ready to convert

  /** Every signal is needed, and all of them together are enough. */
  lemma ConvertsExactly(a: Analysis)
    ensures Converting(a) <==>
              && !a.optOut && a.interest == High && a.confidence >= 0.75 && a.leadScore >= 70
              && a.intent != OptOutIntent && a.intent != NotInterestedIntent && a.intent != OutOfOffice
              && a.intent != Unclear && a.intent != Greeting
              && (a.hasTravelPeriod || a.hasTravellers || a.hasProduct || a.hasRequirements || a.hasDestinations)
  {
  }

  ghost predicate NoOpenDeal(crm: Crm, lead: nat) {
    forall j :: 0 <= j < |crm.deals| && crm.deals[j].lead == lead ==>
      crm.deals[j].stage == DealWon || crm.deals[j].stage == DealLost
  }

  lemma NoneOpen(crm: Crm, lead: nat)
    ensures NoOpenDeal(crm, lead) <==> FindOpenDeal(crm.deals, lead).None?
  {
    var f := FindOpenDeal(crm.deals, lead);
    if f.None? {
      forall j | 0 <= j < |crm.deals| && crm.deals[j].lead == lead
        ensures crm.deals[j].stage == DealWon || crm.deals[j].stage == DealLost
      {
        assert !IsOpen(crm.deals[j].stage);
      }
    }
  }

  /**
   * The contact's lead gets a proposal unless it has an open deal, and is then at least qualified; a
   * contact without a lead gets a qualified one first.
   */
  lemma PromoteWrites(crm: Crm, ctx: Context, a: Analysis, i: nat)
    requires IsHumanInbound(ctx.message) && Converting(a)
    requires forall j :: 0 <= j < |crm.deals| ==> crm.deals[j].lead < |crm.leads|
    ensures var crm' := Apply(crm, Promote(ctx, a)); var n := |crm.leads|;
            && crm'.stats == crm.stats
            && (NoLead(crm, ctx.contact) ==>
                  crm'.leads == crm.leads + [Lead(ctx.contact, ctx.campaign, ctx.enrolment, None, Qualified)]
                  && crm'.deals == crm.deals + [Deal(n, Proposal)])
            && (Earliest(crm, ctx.contact, i) && !NoOpenDeal(crm, i) ==> crm' == crm)
            && (Earliest(crm, ctx.contact, i) && NoOpenDeal(crm, i) ==>
                  crm'.deals == crm.deals + [Deal(i, Proposal)]
                  && crm'.leads == crm.leads[i := crm.leads[i].(status := Promoted(crm.leads[i].status))])
  {
    hide NoLead, Earliest, NoOpenDeal, Converting, IsHumanInbound;
    Found(crm, ctx.contact);
    NoneOpen(crm, i);
    if FindLead(crm.leads, ctx.contact).None? {
      NewLeadHasNoDeal(crm);
      assert FindOpenDeal(crm.deals, |crm.leads|).None?;
    }
  }

  lemma NewLeadHasNoDeal(crm: Crm)
    requires forall j :: 0 <= j < |crm.deals| ==> crm.deals[j].lead < |crm.leads|
    ensures FindOpenDeal(crm.deals, |crm.leads|).None?
  {
  }

  function Promoted(s: LeadStatus): LeadStatus {
    match s
    case New => Qualified
    case Contacted => Qualified
    case Engaged => Qualified
    case Interested => Qualified
    case _ => s
  }

  // ---------------------------------------------------------------- what the count counts

  /** This event creates a lead with a link to campaign `c`, other than to carry a deal. */
  predicate Creates(crm: Crm, e: Event, c: nat) {
    var leads := Apply(crm, e).leads;
    !e.Promote? && |leads| > |crm.leads| && leads[|leads| - 1].campaign == Some(c)
  }

  function Created(crm: Crm, es: seq<Event>, c: nat): nat
    decreases |es|
  {
    if es == [] then 0 else (if Creates(crm, es[0], c) then 1 else 0) + Created(Apply(crm, es[0]), es[1..], c)
  }

  lemma StepCounts(crm: Crm, e: Event, c: nat)
    requires c in crm.stats.leads
    ensures var stats := Apply(crm, e).stats.leads;
            c in stats && stats[c] == crm.stats.leads[c] + if Creates(crm, e, c) then 1 else 0
  {
    hide StandingRules, Advance, Converting;
    if e.Rules? {
      StandingRulesFrame(LeadRules(crm, e.ctx, e.analysis), e.ctx, e.analysis);
    }
  }

  /**
   * Over any run `stats_leads` grows by exactly the leads created with a link to the campaign; those
   * created to carry a deal, and those linked to it later, are not counted.
   */
  lemma {:induction false} LeadsCounted(crm: Crm, es: seq<Event>, c: nat)
    requires c in crm.stats.leads
    ensures var stats := Play(crm, es).stats.leads;
            c in stats && stats[c] == crm.stats.leads[c] + Created(crm, es, c)
    decreases |es|
  {
    hide Apply, Creates;
    if es != [] {
      StepCounts(crm, es[0], c);
      LeadsCounted(Apply(crm, es[0]), es[1..], c);
    }
  }
}
