/** Leads and deals written by the inbound pipeline, each operation taken as one atomic step. */
module Pipeline {
  import opened Options
  import opened Decisions

  datatype Stage = Proposal | Negotiating | VerbalAgreement | DealWon | DealLost

  predicate IsOpen(s: Stage) {
    s.Proposal? || s.Negotiating? || s.VerbalAgreement?
  }

  /** Rows are identified by their position, which is also their order of creation. */
  datatype Lead = Lead(
    contact: nat, campaign: Option<nat>, enrolment: Option<nat>, company: Option<nat>, status: LeadStatus)
  datatype Deal = Deal(lead: nat, stage: Stage)

  /** `CampaignContactStatus`, and whether the enrolment's mode is `human`. */
  datatype Standing =
    | Pending | Sent | Delivered | Read | Replied | OptedOut | Failed | HumanTakeover | Unresponsive
  datatype Enrolment = Enrolment(human: bool, standing: Standing)

  /** The counters `stats_leads`, `stats_replied` and `stats_opted_out` of every existing campaign. */
  datatype Stats = Stats(leads: map<nat, nat>, replied: map<nat, nat>, optOuts: map<nat, nat>)

  datatype Crm = Crm(
    leads: seq<Lead>, deals: seq<Deal>, stats: Stats, optedOut: set<nat>, enrolments: map<nat, Enrolment>)

  datatype Context = Context(
    message: Message, contact: nat, company: Option<nat>, campaign: Option<nat>, enrolment: Option<nat>)

  // ---------------------------------------------------------------- the operations

  /** The contact's earliest lead. */
  function FindLead(leads: seq<Lead>, contact: nat): (i: Option<nat>)
    ensures i.Some? ==> i.value < |leads| && leads[i.value].contact == contact
                        && forall j :: 0 <= j < i.value ==> leads[j].contact != contact
    ensures i.None? ==> forall j :: 0 <= j < |leads| ==> leads[j].contact != contact
  {
    if leads == [] then None
    else if leads[0].contact == contact then Some(0)
    else
      match FindLead(leads[1..], contact)
      case None => None
      case Some(i) => Some(i + 1)
  }

  function FindOpenDeal(deals: seq<Deal>, lead: nat): (i: Option<nat>)
    ensures i.Some? ==> i.value < |deals| && deals[i.value].lead == lead && IsOpen(deals[i.value].stage)
    ensures i.None? ==> forall j :: 0 <= j < |deals| ==> !(deals[j].lead == lead && IsOpen(deals[j].stage))
  {
    if deals == [] then None
    else if deals[0].lead == lead && IsOpen(deals[0].stage) then Some(0)
    else
      match FindOpenDeal(deals[1..], lead)
      case None => None
      case Some(i) => Some(i + 1)
  }

  function Increment(stats: map<nat, nat>, campaign: Option<nat>): map<nat, nat> {
    if campaign.Some? && campaign.value in stats then stats[campaign.value := stats[campaign.value] + 1] else stats
  }

  function CountLead(stats: Stats, campaign: Option<nat>): Stats {
    stats.(leads := Increment(stats.leads, campaign))
  }

  /** `ensureLeadForHumanReply`. */
  function EnsureLead(crm: Crm, ctx: Context): Crm {
    if !IsHumanInbound(ctx.message) then crm
    else
      match FindLead(crm.leads, ctx.contact)
      case Some(i) =>
        var lead := crm.leads[i];
        crm.(leads := crm.leads[i := lead.(campaign := OrElse(lead.campaign, ctx.campaign),
                                           enrolment := OrElse(lead.enrolment, ctx.enrolment),
                                           company := OrElse(lead.company, ctx.company))])
      case None =>
        crm.(leads := crm.leads + [Lead(ctx.contact, ctx.campaign, ctx.enrolment, ctx.company, Engaged)],
             stats := CountLead(crm.stats, ctx.campaign))
  }

  /** The model is sure enough of the interest for the contact to be a lead. */
  predicate Qualifies(a: Analysis) {
    (a.interest.High? || a.interest.Medium?) && a.confidence >= 0.7
  }

  /** What `executeBusinessRules` does to the leads. */
  function LeadRules(crm: Crm, ctx: Context, a: Analysis): Crm {
    if !a.optOut && Qualifies(a) then
      var status := if a.interest.High? then Interested else Engaged;
      match FindLead(crm.leads, ctx.contact)
      case Some(i) =>
        crm.(leads := crm.leads[i := crm.leads[i].(status := Advance(crm.leads[i].status, status))])
      case None =>
        crm.(leads := crm.leads + [Lead(ctx.contact, ctx.campaign, ctx.enrolment, None, status)],
             stats := CountLead(crm.stats, ctx.campaign))
    else crm
  }

  /** An update of the enrolment's mode and status, where there is such an enrolment. */
  function Mark(enrolments: map<nat, Enrolment>, id: Option<nat>, human: bool, standing: Option<Standing>)
    : map<nat, Enrolment>
  {
    if id.Some? && id.value in enrolments then
      var e := enrolments[id.value];
      enrolments[id.value := Enrolment(e.human || human, if standing.Some? then standing.value else e.standing)]
    else enrolments
  }

  /** What it does to the enrolment, the contact and the other counters. */
  function StandingRules(crm: Crm, ctx: Context, a: Analysis): Crm {
    var id, c := ctx.enrolment, ctx.campaign;
    if a.optOut then
      crm.(optedOut := crm.optedOut + {ctx.contact},
           enrolments := Mark(crm.enrolments, id, false, Some(Standing.OptedOut)),
           stats := crm.stats.(optOuts := Increment(crm.stats.optOuts, c)))
    else if Qualifies(a) then
      if a.needsHuman || a.interest.High?
      then crm.(enrolments := Mark(crm.enrolments, id, true, Some(HumanTakeover)))
      else crm
    else if a.confidence < 0.5 then crm.(enrolments := Mark(crm.enrolments, id, true, None))
    else if a.intent.NotInterestedIntent? then crm.(enrolments := Mark(crm.enrolments, id, false, Some(Replied)))
    else
      crm.(enrolments := Mark(crm.enrolments, id, false, Some(Replied)),
           stats := crm.stats.(replied := Increment(crm.stats.replied, c)))
  }

  /** `executeBusinessRules`. */
  function BusinessRules(crm: Crm, ctx: Context, a: Analysis): Crm {
    StandingRules(LeadRules(crm, ctx, a), ctx, a)
  }

  /** The lead a deal will hang off, created when the conversation has none. */
  function LeadForDeal(crm: Crm, ctx: Context): (r: (Crm, nat))
    ensures r.1 < |r.0.leads|
  {
    match FindLead(crm.leads, ctx.contact)
    case Some(i) => (crm, i)
    case None =>
      (crm.(leads := crm.leads + [Lead(ctx.contact, ctx.campaign, ctx.enrolment, None, Qualified)]), |crm.leads|)
  }

  /** `maybeCreateDealFromAnalysis`, reached only for a human message. */
  function MaybeDeal(crm: Crm, ctx: Context, a: Analysis): Crm {
    if !IsHumanInbound(ctx.message) || !Converting(a) then crm
    else
      var (crm', i) := LeadForDeal(crm, ctx);
      if FindOpenDeal(crm'.deals, i).Some? then crm'
      else
        crm'.(deals := crm'.deals + [Deal(i, Proposal)],
              leads := crm'.leads[i := crm'.leads[i].(status := Advance(crm'.leads[i].status, Qualified))])
  }

  /** The service, whose methods write the rows. */
  class Service {
    var leads: seq<Lead>
    var deals: seq<Deal>
    var stats: Stats
    var optedOut: set<nat>
    var enrolments: map<nat, Enrolment>

    function State(): Crm
      reads this
    {
      Crm(leads, deals, stats, optedOut, enrolments)
    }

    constructor (stats: Stats, enrolments: map<nat, Enrolment>)
      ensures State() == Crm([], [], stats, {}, enrolments)
    {
      this.leads, this.deals, this.stats, this.optedOut, this.enrolments := [], [], stats, {}, enrolments;
    }

    /** The repository's update of one enrolment, which may not exist. */
    method UpdateEnrolment(id: Option<nat>, human: bool, standing: Option<Standing>)
      modifies this`enrolments
      ensures enrolments == Mark(old(enrolments), id, human, standing)
    {
      if id.Some? && id.value in enrolments {
        var e := enrolments[id.value];
        if human {
          e := e.(human := true);
        }
        if standing.Some? {
          e := e.(standing := standing.value);
        }
        enrolments := enrolments[id.value := e];
      }
    }

    method EnsureLeadForHumanReply(ctx: Context) returns (lead: Option<nat>)
      modifies this
      ensures State() == EnsureLead(old(State()), ctx)
      ensures lead.Some? <==> IsHumanInbound(ctx.message)
      ensures lead.Some? ==> lead == FindLead(leads, ctx.contact)
    {
      if !IsHumanInbound(ctx.message) {
        return None;
      }
      lead := FindLead(leads, ctx.contact);
      if lead.Some? {
        var i := lead.value;
        var row := leads[i];
        if row.campaign.None? && ctx.campaign.Some? {
          row := row.(campaign := ctx.campaign);
        }
        if row.enrolment.None? && ctx.enrolment.Some? {
          row := row.(enrolment := ctx.enrolment);
        }
        if row.company.None? && ctx.company.Some? {
          row := row.(company := ctx.company);
        }
        leads := leads[i := row];
        EarliestIs(leads, ctx.contact, i);
        return;
      }
      lead := Some(|leads|);
      leads := leads + [Lead(ctx.contact, ctx.campaign, ctx.enrolment, ctx.company, Engaged)];
      if ctx.campaign.Some? {
        stats := CountLead(stats, ctx.campaign);
      }
      EarliestIs(leads, ctx.contact, |leads| - 1);
    }

    method ExecuteBusinessRules(ctx: Context, a: Analysis)
      modifies this
      ensures State() == BusinessRules(old(State()), ctx, a)
    {
      if a.optOut {
        optedOut := optedOut + {ctx.contact};
        UpdateEnrolment(ctx.enrolment, false, Some(Standing.OptedOut));
        if ctx.campaign.Some? {
          stats := stats.(optOuts := Increment(stats.optOuts, ctx.campaign));
        }
        return;
      }
      if (a.interest.High? || a.interest.Medium?) && a.confidence >= 0.7 {
        var status := if a.interest.High? then Interested else Engaged;
        var existing := FindLead(leads, ctx.contact);
        if existing.Some? {
          var i := existing.value;
          leads := leads[i := leads[i].(status := Advance(leads[i].status, status))];
        } else {
          leads := leads + [Lead(ctx.contact, ctx.campaign, ctx.enrolment, None, status)];
          if ctx.campaign.Some? {
            stats := CountLead(stats, ctx.campaign);
          }
        }
        if a.needsHuman || a.interest.High? {
          UpdateEnrolment(ctx.enrolment, true, Some(HumanTakeover));
        }
        return;
      }
      if a.confidence < 0.5 {
        UpdateEnrolment(ctx.enrolment, true, None);
        return;
      }
      if a.intent.NotInterestedIntent? {
        UpdateEnrolment(ctx.enrolment, false, Some(Replied));
        return;
      }
      UpdateEnrolment(ctx.enrolment, false, Some(Replied));
      if ctx.campaign.Some? {
        stats := stats.(replied := Increment(stats.replied, ctx.campaign));
      }
    }

    /** The handler of an analysis job that throws. */
    method FlagForReview(ctx: Context)
      modifies this`enrolments
      ensures State() == Apply(old(State()), Failure(ctx))
    {
      UpdateEnrolment(ctx.enrolment, true, None);
    }

    method MaybeCreateDealFromAnalysis(ctx: Context, a: Analysis) returns (deal: Option<nat>)
      modifies this
      ensures State() == MaybeDeal(old(State()), ctx, a)
      ensures deal.Some? <==> IsHumanInbound(ctx.message) && Converting(a)
      ensures deal.Some? ==> deal.value < |deals| && IsOpen(deals[deal.value].stage)
                             && deals[deal.value].lead < |leads|
    {
      if !IsHumanInbound(ctx.message) || !Converting(a) {
        return None;
      }
      var found := FindLead(leads, ctx.contact);
      var i;
      if found.None? {
        i := |leads|;
        leads := leads + [Lead(ctx.contact, ctx.campaign, ctx.enrolment, None, Qualified)];
      } else {
        i := found.value;
      }
      deal := FindOpenDeal(deals, i);
      if deal.Some? {
        return;
      }
      deal := Some(|deals|);
      deals := deals + [Deal(i, Proposal)];
      leads := leads[i := leads[i].(status := Advance(leads[i].status, Qualified))];
    }
  }

  lemma EarliestIs(leads: seq<Lead>, contact: nat, i: nat)
    requires i < |leads| && leads[i].contact == contact
    requires forall j :: 0 <= j < i ==> leads[j].contact != contact
    ensures FindLead(leads, contact) == Some(i)
  {
    var f := FindLead(leads, contact);
    assert f.Some?;
  }

  // ---------------------------------------------------------------- runs

  /**
   * `Failure` is an analysis job that throws, which flags the enrolment for people. People may set
   * any lead status, and may move a deal that is still open.
   */
  datatype Event =
    | Reply(ctx: Context)
    | Rules(ctx: Context, analysis: Analysis)
    | Failure(ctx: Context)
    | Promote(ctx: Context, analysis: Analysis)
    | SetStatus(lead: nat, status: LeadStatus)
    | MoveDeal(deal: nat, stage: Stage)

  predicate Automatic(e: Event) {
    e.Reply? || e.Rules? || e.Failure? || e.Promote?
  }

  function Apply(crm: Crm, e: Event): Crm {
    match e
    case Reply(ctx) => EnsureLead(crm, ctx)
    case Rules(ctx, a) => BusinessRules(crm, ctx, a)
    case Failure(ctx) => crm.(enrolments := Mark(crm.enrolments, ctx.enrolment, true, None))
    case Promote(ctx, a) => MaybeDeal(crm, ctx, a)
    case SetStatus(i, status) =>
      if i < |crm.leads| then crm.(leads := crm.leads[i := crm.leads[i].(status := status)]) else crm
    case MoveDeal(i, stage) =>
      if i < |crm.deals| && IsOpen(crm.deals[i].stage)
      then crm.(deals := crm.deals[i := crm.deals[i].(stage := stage)]) else crm
  }

  function Play(crm: Crm, es: seq<Event>): Crm
    decreases |es|
  {
    if es == [] then crm else Play(Apply(crm, es[0]), es[1..])
  }

  // ---------------------------------------------------------------- the invariant

  /** Leads linked to a campaign. */
  function Linked(leads: seq<Lead>, campaign: nat): nat {
    if leads == [] then 0
    else Linked(leads[..|leads| - 1], campaign) + (if leads[|leads| - 1].campaign == Some(campaign) then 1 else 0)
  }

  ghost predicate OneLeadEach(leads: seq<Lead>) {
    forall i, j :: 0 <= i < j < |leads| ==> leads[i].contact != leads[j].contact
  }

  ghost predicate OneOpenDealEach(crm: Crm) {
    && (forall i :: 0 <= i < |crm.deals| ==> crm.deals[i].lead < |crm.leads|)
    && (forall i, j :: 0 <= i < j < |crm.deals| && IsOpen(crm.deals[i].stage) && IsOpen(crm.deals[j].stage)
                       ==> crm.deals[i].lead != crm.deals[j].lead)
  }

  ghost predicate StatsBacked(crm: Crm) {
    forall c :: c in crm.stats.leads ==> crm.stats.leads[c] <= Linked(crm.leads, c)
  }

  ghost predicate Ok(crm: Crm) {
    OneLeadEach(crm.leads) && OneOpenDealEach(crm) && StatsBacked(crm)
  }

  /** Enriching a lead never unlinks it. */
  lemma {:induction false} LinkedUpdate(leads: seq<Lead>, i: nat, lead: Lead, c: nat)
    requires i < |leads| && (leads[i].campaign == Some(c) ==> lead.campaign == Some(c))
    ensures Linked(leads[i := lead], c) >= Linked(leads, c)
  {
    var n := |leads| - 1;
    if i < n {
      LinkedUpdate(leads[..n], i, lead, c);
      assert leads[i := lead][..n] == leads[..n][i := lead];
    } else {
      assert leads[i := lead][..n] == leads[..n];
    }
  }

  /** An update of one lead that keeps its contact and its campaign link. */
  lemma UpdateKeeps(crm: Crm, i: nat, lead: Lead)
    requires Ok(crm) && i < |crm.leads| && lead.contact == crm.leads[i].contact
    requires crm.leads[i].campaign.Some? ==> lead.campaign == crm.leads[i].campaign
    ensures Ok(crm.(leads := crm.leads[i := lead]))
  {
    forall c | c in crm.stats.leads ensures crm.stats.leads[c] <= Linked(crm.leads[i := lead], c) {
      LinkedUpdate(crm.leads, i, lead, c);
    }
  }

  /** A new lead for a contact that has none, counted or not. */
  lemma InsertKeeps(crm: Crm, lead: Lead, stats: Stats)
    requires Ok(crm) && FindLead(crm.leads, lead.contact).None?
    requires stats == crm.stats || stats == CountLead(crm.stats, lead.campaign)
    ensures Ok(crm.(leads := crm.leads + [lead], stats := stats))
  {
    forall c | c in stats.leads ensures stats.leads[c] <= Linked(crm.leads + [lead], c) {
      assert Linked(crm.leads + [lead], c) == Linked(crm.leads, c) + (if lead.campaign == Some(c) then 1 else 0);
    }
  }

  lemma DealKeeps(crm: Crm, i: nat)
    requires Ok(crm) && i < |crm.leads| && FindOpenDeal(crm.deals, i).None?
    ensures Ok(crm.(deals := crm.deals + [Deal(i, Proposal)]))
  {
  }

  lemma ApplyKeeps(crm: Crm, e: Event)
    requires Ok(crm)
    ensures Ok(Apply(crm, e))
  {
    hide Ok;
    match e
    case Reply(ctx) =>
      if IsHumanInbound(ctx.message) {
        match FindLead(crm.leads, ctx.contact)
        case Some(i) =>
          var lead := crm.leads[i];
          UpdateKeeps(crm, i, lead.(campaign := OrElse(lead.campaign, ctx.campaign),
                                    enrolment := OrElse(lead.enrolment, ctx.enrolment),
                                    company := OrElse(lead.company, ctx.company)));
        case None =>
          InsertKeeps(crm, Lead(ctx.contact, ctx.campaign, ctx.enrolment, ctx.company, Engaged),
                      CountLead(crm.stats, ctx.campaign));
      }
    case Rules(ctx, a) =>
      LeadRulesKeep(crm, ctx, a);
      StandingRulesKeep(LeadRules(crm, ctx, a), ctx, a);
    case Failure(ctx) =>
      FailureKeeps(crm, ctx);
    case Promote(ctx, a) =>
      PromoteKeeps(crm, ctx, a);
    case SetStatus(i, status) =>
      if i < |crm.leads| {
        UpdateKeeps(crm, i, crm.leads[i].(status := status));
      }
    case MoveDeal(i, stage) =>
      MoveKeeps(crm, i, stage);
  }

  lemma LeadRulesKeep(crm: Crm, ctx: Context, a: Analysis)
    requires Ok(crm)
    ensures Ok(LeadRules(crm, ctx, a))
  {
    hide Ok;
    if !a.optOut && Qualifies(a) {
      var status := if a.interest.High? then Interested else Engaged;
      match FindLead(crm.leads, ctx.contact)
      case Some(i) => UpdateKeeps(crm, i, crm.leads[i].(status := Advance(crm.leads[i].status, status)));
      case None =>
        InsertKeeps(crm, Lead(ctx.contact, ctx.campaign, ctx.enrolment, None, status),
                    CountLead(crm.stats, ctx.campaign));
    }
  }

  /** Leads, deals and the count of leads are not touched. */
  lemma StandingRulesFrame(crm: Crm, ctx: Context, a: Analysis)
    ensures var crm' := StandingRules(crm, ctx, a);
            crm'.leads == crm.leads && crm'.deals == crm.deals && crm'.stats.leads == crm.stats.leads
  {
  }

  lemma StandingRulesKeep(crm: Crm, ctx: Context, a: Analysis)
    requires Ok(crm)
    ensures Ok(StandingRules(crm, ctx, a))
  {
    hide StandingRules;
    StandingRulesFrame(crm, ctx, a);
  }

  lemma FailureKeeps(crm: Crm, ctx: Context)
    requires Ok(crm)
    ensures Ok(Apply(crm, Failure(ctx)))
  {
  }

  lemma MoveKeeps(crm: Crm, i: nat, stage: Stage)
    requires Ok(crm)
    ensures Ok(Apply(crm, MoveDeal(i, stage)))
  {
  }

  lemma PromoteKeeps(crm: Crm, ctx: Context, a: Analysis)
    requires Ok(crm)
    ensures Ok(MaybeDeal(crm, ctx, a))
  {
    hide Ok, Converting;
    if IsHumanInbound(ctx.message) && Converting(a) {
      var (crm', i) := LeadForDeal(crm, ctx);
      if FindLead(crm.leads, ctx.contact).None? {
        InsertKeeps(crm, Lead(ctx.contact, ctx.campaign, ctx.enrolment, None, Qualified), crm.stats);
      }
      assert Ok(crm');
      if FindOpenDeal(crm'.deals, i).None? {
        DealKeeps(crm', i);
        var crm'' := crm'.(deals := crm'.deals + [Deal(i, Proposal)]);
        UpdateKeeps(crm'', i, crm'.leads[i].(status := Advance(crm'.leads[i].status, Qualified)));
      }
    }
  }

  /** Over any run: one lead per contact, one open deal per lead, counters never above the links. */
  lemma {:induction false} PlayKeeps(crm: Crm, es: seq<Event>)
    requires Ok(crm)
    ensures Ok(Play(crm, es))
    decreases |es|
  {
    hide Ok, Apply;
    if es != [] {
      ApplyKeeps(crm, es[0]);
      PlayKeeps(Apply(crm, es[0]), es[1..]);
    }
  }

  // ---------------------------------------------------------------- the funnel only moves forward

  /** No lead lost or moved to another contact, and each status kept or strictly further along. */
  ghost predicate Forward(before: seq<Lead>, after: seq<Lead>) {
    |before| <= |after| && forall i :: 0 <= i < |before| ==>
      && after[i].contact == before[i].contact
      && (after[i].status == before[i].status || Rank(after[i].status) > Rank(before[i].status))
      && (before[i].campaign.Some? ==> after[i].campaign == before[i].campaign)
  }

  lemma AutomaticIsForward(crm: Crm, e: Event)
    requires Automatic(e)
    ensures Forward(crm.leads, Apply(crm, e).leads)
  {
    hide Rank, Converting;
  }

  /** Over any automatic run a lead that reached the end of the funnel stays exactly there. */
  lemma {:induction false} TerminalStays(crm: Crm, es: seq<Event>, i: nat)
    requires i < |crm.leads| && forall e :: e in es ==> Automatic(e)
    ensures Forward(crm.leads, Play(crm, es).leads)
    ensures Rank(crm.leads[i].status) == 100 ==> Play(crm, es).leads[i].status == crm.leads[i].status
    decreases |es|
  {
    if es != [] {
      AutomaticIsForward(crm, es[0]);
      TerminalStays(Apply(crm, es[0]), es[1..], i);
    }
  }

  /** A deal appears only for a human message whose analysis shows every conversion signal. */
  lemma DealsNeedIntent(crm: Crm, e: Event)
    requires |Apply(crm, e).deals| != |crm.deals|
    ensures e.Promote? && IsHumanInbound(e.ctx.message)
    ensures var a := e.analysis;
            && !a.optOut && a.interest == High && a.confidence >= 0.75 && a.leadScore >= 70
            && (a.hasTravelPeriod || a.hasTravellers || a.hasProduct || a.hasRequirements || a.hasDestinations)
    ensures var end := Apply(crm, e);
            && |end.deals| == |crm.deals| + 1 && end.deals[..|crm.deals|] == crm.deals
            && end.leads[end.deals[|crm.deals|].lead].contact == e.ctx.contact
            && Rank(end.leads[end.deals[|crm.deals|].lead].status) >= Rank(Qualified)
  {
  }
}
