/**
 * The CRM endpoints (`backend/apps/crm/views.py`): converting a lead,
 * the stage-update dispatch, the per-stage sales pipeline and the
 * statistics' aggregates.  `org` is the requesting user's organization;
 * a user without one matches no record.
 */
module CrmViews {
  import opened Wrappers
  import opened Text
  import opened Calendar
  import opened Seqs
  import opened AuthModels
  import opened CoreModels
  import opened CrmModels
  import opened Ratios

  /** `filter(organization=request.user.organization)` on one record. */
  predicate OfOrganization(recordOrg: Id, org: Option<Id>)
  {
    org == Some(recordOrg)
  }

  /** The stored CRM records a request reads and writes. */
  datatype Crm = Crm(
    leads: map<Id, Lead>,
    contacts: map<Id, Contact>,
    opportunities: map<Id, Opportunity>,
    notes: seq<Note>)

  /** Every link a record holds names a stored record. */
  ghost predicate CrmValid(s: Crm)
  {
    (forall k :: k in s.leads && s.leads[k].convertedContact.Some? ==> s.leads[k].convertedContact.value in s.contacts)
    && (forall k :: k in s.leads && s.leads[k].convertedOpportunity.Some? ==>
          s.leads[k].convertedOpportunity.value in s.opportunities)
    && (forall k :: k in s.opportunities ==> s.opportunities[k].contact in s.contacts)
  }

  // ---------------------------------------------------------------------
  // convert_lead_view
  // ---------------------------------------------------------------------

  datatype ConvertOutcome =
    | LeadNotFound
    | LeadAlreadyConverted
    | InvalidConversionRequest
    | LeadConverted(contactId: Id, opportunityId: Id)
      /** The opportunity insert failed; the contact written before it stays. */
    | ConversionCrashed

  /**
   * `convert_lead_view`; `requestValid` is whether the conversion
   * serializer accepts the body, and the two ids are those the new rows
   * receive.
   */
  function ConvertLeadEffect(s: Crm, org: Option<Id>, pk: Id, requestValid: bool, user: Id,
                             contactId: Id, opportunityId: Id, now: int): (r: (Crm, ConvertOutcome))
  {
    if pk !in s.leads || !OfOrganization(s.leads[pk].organization, org) then (s, LeadNotFound)
    else if IsConverted(s.leads[pk]) then (s, LeadAlreadyConverted)
    else if !requestValid then (s, InvalidConversionRequest)
    else match Convert(s.leads[pk], user, contactId, now)
      case Converted(_, contact, opportunity) =>
        (s.(leads := s.leads[pk := ConvertedLead(s.leads[pk], contactId, opportunityId, now)],
            contacts := s.contacts[contactId := contact],
            opportunities := s.opportunities[opportunityId := opportunity]),
         LeadConverted(contactId, opportunityId))
      case OpportunityRefused(contact) => (s.(contacts := s.contacts[contactId := contact]), ConversionCrashed)
      case AlreadyConverted(_, _) => (s, LeadAlreadyConverted)
  }

  /**
   * The view answers 404 for a missing or foreign lead and 400 for a
   * converted one or an invalid body, changing nothing in each case.
   */
  lemma ConvertLeadRefusals(s: Crm, org: Option<Id>, pk: Id, requestValid: bool, user: Id,
                            contactId: Id, opportunityId: Id, now: int)
    ensures var (after, out) := ConvertLeadEffect(s, org, pk, requestValid, user, contactId, opportunityId, now);
      (out == LeadNotFound <==> pk !in s.leads || !OfOrganization(s.leads[pk].organization, org))
      && (out == LeadAlreadyConverted <==> pk in s.leads && OfOrganization(s.leads[pk].organization, org)
                                             && IsConverted(s.leads[pk]))
      && (out == InvalidConversionRequest <==> pk in s.leads && OfOrganization(s.leads[pk].organization, org)
                                                 && !IsConverted(s.leads[pk]) && !requestValid)
      && (out in {LeadNotFound, LeadAlreadyConverted, InvalidConversionRequest} ==> after == s)
  {
    if pk in s.leads && OfOrganization(s.leads[pk].organization, org) && !IsConverted(s.leads[pk]) && requestValid {
      ConvertLeadWrites(s, org, pk, requestValid, user, contactId, opportunityId, now);
    }
  }

  /**
   * A conversion stores the qualified lead, its contact and its
   * opportunity and touches no other lead, and a second request for the
   * same lead is refused as already converted; a refused opportunity
   * leaves only the contact written.
   */
  lemma ConvertLeadStores(s: Crm, org: Option<Id>, pk: Id, requestValid: bool, user: Id,
                          contactId: Id, opportunityId: Id, now: int, later: int)
    ensures var (after, out) := ConvertLeadEffect(s, org, pk, requestValid, user, contactId, opportunityId, now);
      out.LeadConverted? ==>
        pk in s.leads && after.leads[pk] == ConvertedLead(s.leads[pk], contactId, opportunityId, now)
        && after.leads[pk].status == "qualified" && IsConverted(after.leads[pk])
        && after.opportunities[opportunityId].stage == "qualification"
        && after.opportunities[opportunityId].contact == contactId
        && after.contacts[contactId] == ConvertedContact(s.leads[pk], user)
        && after.notes == s.notes
        && (forall k :: k in s.leads && k != pk ==> after.leads[k] == s.leads[k])
        && ConvertLeadEffect(after, org, pk, requestValid, user, contactId, opportunityId, later).1
           == LeadAlreadyConverted
    ensures var (after, out) := ConvertLeadEffect(s, org, pk, requestValid, user, contactId, opportunityId, now);
      out == ConversionCrashed ==>
        pk in s.leads && after == s.(contacts := s.contacts[contactId := ConvertedContact(s.leads[pk], user)])
        && (s.leads[pk].estimatedValue.None? || s.leads[pk].expectedCloseDate.None?)
  {
    if pk in s.leads && OfOrganization(s.leads[pk].organization, org) && !IsConverted(s.leads[pk]) && requestValid {
      var l := s.leads[pk];
      ConvertLeadWrites(s, org, pk, requestValid, user, contactId, opportunityId, now);
      ConvertSpec(l, user, contactId, opportunityId, now, later);
      var after := ConversionWrites(s, pk, user, contactId, opportunityId, now).0;
      if l.estimatedValue.Some? && l.expectedCloseDate.Some? {
        var l' := ConvertedLead(l, contactId, opportunityId, now);
        assert after.leads[pk] == l';
        assert l'.organization == l.organization;
      }
    }
  }

  /** A conversion keeps every link pointing at a stored record. */
  lemma ConvertLeadKeepsValid(s: Crm, org: Option<Id>, pk: Id, requestValid: bool, user: Id,
                              contactId: Id, opportunityId: Id, now: int)
    requires CrmValid(s)
    ensures CrmValid(ConvertLeadEffect(s, org, pk, requestValid, user, contactId, opportunityId, now).0)
  {
    if pk in s.leads && OfOrganization(s.leads[pk].organization, org) && !IsConverted(s.leads[pk]) && requestValid {
      ConvertLeadWrites(s, org, pk, requestValid, user, contactId, opportunityId, now);
      ConversionKeepsValid(s, pk, user, contactId, opportunityId, now);
    }
  }

  lemma ConversionKeepsValid(s: Crm, pk: Id, user: Id, contactId: Id, opportunityId: Id, now: int)
    requires CrmValid(s) && pk in s.leads && !IsConverted(s.leads[pk])
    ensures CrmValid(ConversionWrites(s, pk, user, contactId, opportunityId, now).0)
  {
    var l := s.leads[pk];
    var c := ConvertedContact(l, user);
    if l.estimatedValue.None? || l.expectedCloseDate.None? {
      StoredLinksKeepValid(s, pk, l, contactId, c, opportunityId, None);
    } else {
      var o := Convert(l, user, contactId, now).opportunity;
      StoredLinksKeepValid(s, pk, ConvertedLead(l, contactId, opportunityId, now), contactId, c, opportunityId, Some(o));
    }
  }

  /**
   * Storing a contact, then optionally an opportunity of that contact and
   * a lead linked to both, keeps every link pointing at a stored record.
   */
  lemma StoredLinksKeepValid(s: Crm, pk: Id, l: Lead, contactId: Id, c: Contact, opportunityId: Id, o: Option<Opportunity>)
    requires CrmValid(s)
    requires o.Some? ==> (o.value.contact == contactId
                          && l.convertedContact == Some(contactId) && l.convertedOpportunity == Some(opportunityId))
    ensures o.None? ==> CrmValid(s.(contacts := s.contacts[contactId := c]))
    ensures o.Some? ==> CrmValid(Crm(s.leads[pk := l], s.contacts[contactId := c],
                                     s.opportunities[opportunityId := o.value], s.notes))
  {
  }

  /** What an accepted conversion request writes: the contact always, the rest only when the opportunity insert succeeds. */
  function ConversionWrites(s: Crm, pk: Id, user: Id, contactId: Id, opportunityId: Id, now: int): (r: (Crm, ConvertOutcome))
    requires pk in s.leads && !IsConverted(s.leads[pk])
    ensures r.0.contacts == s.contacts[contactId := ConvertedContact(s.leads[pk], user)] && r.0.notes == s.notes
    ensures r.1 == ConversionCrashed <==> s.leads[pk].estimatedValue.None? || s.leads[pk].expectedCloseDate.None?
  {
    var l := s.leads[pk];
    var contacts := s.contacts[contactId := ConvertedContact(l, user)];
    if l.estimatedValue.None? || l.expectedCloseDate.None? then (s.(contacts := contacts), ConversionCrashed)
    else (Crm(s.leads[pk := ConvertedLead(l, contactId, opportunityId, now)], contacts,
              s.opportunities[opportunityId := Convert(l, user, contactId, now).opportunity], s.notes),
          LeadConverted(contactId, opportunityId))
  }

  /**
   * The writes of an accepted conversion request as the source is
   * written: the name split raises `IndexError` on a non-empty contact
   * name made only of whitespace, before the contact row is created, so
   * nothing is written; every other lead gets `ConversionWrites`.
   */
  function ConversionWritesAsWritten(s: Crm, pk: Id, user: Id, contactId: Id, opportunityId: Id, now: int): (r: (Crm, ConvertOutcome))
    requires pk in s.leads && !IsConverted(s.leads[pk])
  {
    if SplitNameAsWritten(s.leads[pk].contactName).None? then (s, ConversionCrashed)
    else ConversionWrites(s, pk, user, contactId, opportunityId, now)
  }

  /**
   * As written, a conversion of a lead whose contact name is blank but not
   * empty crashes and writes nothing, where the corrected conversion
   * stores a contact with empty names; on every other lead the two agree.
   */
  lemma BlankNameConversionCrashes(s: Crm, pk: Id, user: Id, contactId: Id, opportunityId: Id, now: int)
    requires pk in s.leads && !IsConverted(s.leads[pk])
    ensures var name := s.leads[pk].contactName;
      name != "" && AllSpace(name) ==>
        ConversionWritesAsWritten(s, pk, user, contactId, opportunityId, now) == (s, ConversionCrashed)
        && var c := ConversionWrites(s, pk, user, contactId, opportunityId, now).0.contacts[contactId];
           c.firstName == "" && c.lastName == ""
    ensures var name := s.leads[pk].contactName;
      !(name != "" && AllSpace(name)) ==>
        ConversionWritesAsWritten(s, pk, user, contactId, opportunityId, now)
        == ConversionWrites(s, pk, user, contactId, opportunityId, now)
  {
    var name := s.leads[pk].contactName;
    SplitNameAgrees(name);
    SplitNameWords(name);
  }

  lemma ConvertLeadWrites(s: Crm, org: Option<Id>, pk: Id, requestValid: bool, user: Id,
                          contactId: Id, opportunityId: Id, now: int)
    requires pk in s.leads && OfOrganization(s.leads[pk].organization, org) && !IsConverted(s.leads[pk]) && requestValid
    ensures ConvertLeadEffect(s, org, pk, requestValid, user, contactId, opportunityId, now)
         == ConversionWrites(s, pk, user, contactId, opportunityId, now)
  {
  }

  // ---------------------------------------------------------------------
  // update_opportunity_stage_view
  // ---------------------------------------------------------------------

  /**
   * The stage-update serializer: the stage is required, trimmed,
   * non-blank and at most 20 characters; the optional reason is trimmed,
   * may be blank, is at most 500 characters and defaults to "".
   */
  function ValidateStageUpdate(stage: Option<string>, reason: Option<string>): (r: Option<(string, string)>)
    ensures r.Some? <==> stage.Some? && Strip(stage.value) != "" && |Strip(stage.value)| <= 20
                         && (reason.Some? ==> |Strip(reason.value)| <= 500)
    ensures r.Some? ==> r.value.0 == Strip(stage.value)
    ensures r.Some? ==> r.value.1 == if reason.Some? then Strip(reason.value) else ""
  {
    if stage.None? then None
    else
      var st := Strip(stage.value);
      var why := if reason.Some? then Strip(reason.value) else "";
      if st == "" || |st| > 20 || |why| > 500 then None else Some((st, why))
  }

  /** The dispatch on the requested stage: the two closes, or storing the text as the stage. */
  function UpdateStage(o: Opportunity, oppId: Id, stage: string, reason: string, user: Id, today: Date): (Opportunity, Option<Note>)
  {
    if stage == "closed_won" then (CloseAsWon(o, user, today), None)
    else if stage == "closed_lost" then CloseAsLost(o, oppId, user, today, reason)
    else (o.(stage := stage, updatedBy := Some(user)), None)
  }

  /**
   * Whatever the route, the stored stage is the requested one; the
   * opportunity is closed exactly for the two closing stages, which set
   * the probability to 100 or 0 and the close date; any other stage keeps
   * probability and close date; only a lost close with a reason adds a
   * note.
   */
  lemma UpdateStageSpec(o: Opportunity, oppId: Id, stage: string, reason: string, user: Id, today: Date)
    ensures var (r, note) := UpdateStage(o, oppId, stage, reason, user, today);
      r.stage == stage && r.updatedBy == Some(user)
      && (IsClosed(r) <==> stage == "closed_won" || stage == "closed_lost")
      && (stage == "closed_won" ==> r.probability == 100 && r.actualCloseDate == Some(today))
      && (stage == "closed_lost" ==> r.probability == 0 && r.actualCloseDate == Some(today))
      && (!IsClosed(r) ==> r.probability == o.probability && r.actualCloseDate == o.actualCloseDate)
      && r.estimatedValue == o.estimatedValue && r.contact == o.contact
      && (note.Some? <==> stage == "closed_lost" && reason != "")
  {
  }

  datatype StageOutcome = OpportunityNotFound | InvalidStageRequest | StageUpdated(stage: string)

  /** `update_opportunity_stage_view` on the stored records. */
  function UpdateStageEffect(s: Crm, org: Option<Id>, pk: Id, stage: Option<string>, reason: Option<string>,
                             user: Id, today: Date): (r: (Crm, StageOutcome))
  {
    if pk !in s.opportunities || !OfOrganization(s.opportunities[pk].organization, org) then (s, OpportunityNotFound)
    else match ValidateStageUpdate(stage, reason)
      case None => (s, InvalidStageRequest)
      case Some((st, why)) =>
        var (o, note) := UpdateStage(s.opportunities[pk], pk, st, why, user, today);
        (StoreStage(s, pk, o, note), StageUpdated(o.stage))
  }

  /** Saving the updated opportunity and, when there is one, its note. */
  function StoreStage(s: Crm, pk: Id, o: Opportunity, note: Option<Note>): (r: Crm)
    ensures r.leads == s.leads && r.contacts == s.contacts
    ensures r.opportunities == s.opportunities[pk := o]
    ensures note.None? ==> r.notes == s.notes
    ensures note.Some? ==> r.notes == s.notes + [note.value]
  {
    s.(opportunities := s.opportunities[pk := o],
       notes := if note.Some? then s.notes + [note.value] else s.notes)
  }

  /**
   * A stage update reports the stage it stored, which is the trimmed
   * request; it changes only that opportunity and at most appends one
   * note, and it keeps every link valid.
   */
  lemma UpdateStageEffectSpec(s: Crm, org: Option<Id>, pk: Id, stage: Option<string>, reason: Option<string>,
                              user: Id, today: Date)
    ensures var out := UpdateStageEffect(s, org, pk, stage, reason, user, today).1;
      out == OpportunityNotFound <==> pk !in s.opportunities || !OfOrganization(s.opportunities[pk].organization, org)
    ensures var (after, out) := UpdateStageEffect(s, org, pk, stage, reason, user, today);
      !out.StageUpdated? ==> after == s
    ensures var after := UpdateStageEffect(s, org, pk, stage, reason, user, today).0;
      after.leads == s.leads && after.contacts == s.contacts
    ensures var after := UpdateStageEffect(s, org, pk, stage, reason, user, today).0;
      after.opportunities.Keys == s.opportunities.Keys
    ensures var after := UpdateStageEffect(s, org, pk, stage, reason, user, today).0;
      forall k :: k in s.opportunities && k != pk ==> after.opportunities[k] == s.opportunities[k]
    ensures var (after, out) := UpdateStageEffect(s, org, pk, stage, reason, user, today);
      out.StageUpdated? ==>
        out.stage == Strip(stage.value) && after.opportunities[pk].stage == out.stage
    ensures var (after, out) := UpdateStageEffect(s, org, pk, stage, reason, user, today);
      out.StageUpdated? ==>
        (after.notes == s.notes || (|after.notes| == |s.notes| + 1 && after.notes[..|s.notes|] == s.notes))
  {
  }

  /** A stage update keeps every link pointing at a stored record. */
  lemma UpdateStageKeepsValid(s: Crm, org: Option<Id>, pk: Id, stage: Option<string>, reason: Option<string>,
                              user: Id, today: Date)
    requires CrmValid(s)
    ensures CrmValid(UpdateStageEffect(s, org, pk, stage, reason, user, today).0)
  {
    if pk in s.opportunities && OfOrganization(s.opportunities[pk].organization, org) {
      match ValidateStageUpdate(stage, reason)
      case None =>
      case Some((st, why)) =>
        var (o, note) := UpdateStage(s.opportunities[pk], pk, st, why, user, today);
        UpdateStageSpec(s.opportunities[pk], pk, st, why, user, today);
        StoreStageKeepsValid(s, pk, o, note);
    }
  }

  /** Replacing an opportunity by one with the same contact keeps every link valid. */
  lemma StoreStageKeepsValid(s: Crm, pk: Id, o: Opportunity, note: Option<Note>)
    requires CrmValid(s) && pk in s.opportunities && o.contact == s.opportunities[pk].contact
    ensures CrmValid(StoreStage(s, pk, o, note))
  {
  }

  // ---------------------------------------------------------------------
  // sales_pipeline_view
  // ---------------------------------------------------------------------

  /** The open stages the pipeline reports, in its fixed order. */
  const PipelineStages: seq<string> := ["qualification", "needs_analysis", "proposal", "negotiation"]

  /** `filter(organization=org, stage=stage)` as a condition. */
  function AtStagePred(org: Option<Id>, stage: string): Opportunity -> bool
  {
    (o: Opportunity) => OfOrganization(o.organization, org) && o.stage == stage
  }

  /** The organization's opportunities at `stage`, in order. */
  function AtStage(opps: seq<Opportunity>, org: Option<Id>, stage: string): (r: seq<Opportunity>)
    ensures forall o :: o in r <==> o in opps && OfOrganization(o.organization, org) && o.stage == stage
  {
    Filter(opps, AtStagePred(org, stage))
  }

  /** The sum of the estimated values. */
  function TotalValue(opps: seq<Opportunity>): int
  {
    if opps == [] then 0 else TotalValue(opps[..|opps| - 1]) + opps[|opps| - 1].estimatedValue
  }

  /** The sum of the weighted values. */
  function WeightedTotal(opps: seq<Opportunity>): real
  {
    if opps == [] then 0.0 else WeightedTotal(opps[..|opps| - 1]) + WeightedValue(opps[|opps| - 1])
  }

  /** The sum of the probabilities. */
  function ProbabilityTotal(opps: seq<Opportunity>): nat
  {
    if opps == [] then 0 else ProbabilityTotal(opps[..|opps| - 1]) + opps[|opps| - 1].probability
  }

  datatype StageSummary = StageSummary(stage: string, count: nat, totalValue: int, weightedValue: real,
                                       opportunities: seq<Opportunity>)

  /** One entry of `pipeline_data`. */
  function StageSummaryOf(opps: seq<Opportunity>, org: Option<Id>, stage: string): StageSummary
  {
    var at := AtStage(opps, org, stage);
    StageSummary(stage, |at|, TotalValue(at), WeightedTotal(at), at)
  }

  /** The pipeline `sales_pipeline_view` builds. */
  function Pipeline(opps: seq<Opportunity>, org: Option<Id>): seq<StageSummary>
  {
    seq(|PipelineStages|, i requires 0 <= i < |PipelineStages| => StageSummaryOf(opps, org, PipelineStages[i]))
  }

  /** The loop over the four stages, appending one summary per stage. */
  method SalesPipeline(opps: seq<Opportunity>, org: Option<Id>) returns (data: seq<StageSummary>)
    ensures data == Pipeline(opps, org)
  {
    data := [];
    var i := 0;
    while i < |PipelineStages|
      invariant 0 <= i <= |PipelineStages|
      invariant |data| == i
      invariant forall j :: 0 <= j < i ==> data[j] == StageSummaryOf(opps, org, PipelineStages[j])
    {
      var stage := PipelineStages[i];
      var at := AtStage(opps, org, stage);
      data := data + [StageSummary(stage, |at|, TotalValue(at), WeightedTotal(at), at)];
      i := i + 1;
    }
  }

  /**
   * The pipeline lists the four open stages in their fixed order and no
   * closed stage; each entry holds exactly the organization's
   * opportunities at that stage, and its count is their number.
   */
  lemma PipelineShape(opps: seq<Opportunity>, org: Option<Id>)
    ensures var p := Pipeline(opps, org);
      |p| == 4
      && (forall i :: 0 <= i < 4 ==> p[i].stage == PipelineStages[i])
      && (forall i :: 0 <= i < 4 ==> p[i].stage != "closed_won" && p[i].stage != "closed_lost")
      && (forall i :: 0 <= i < 4 ==> p[i].count == |p[i].opportunities|)
      && (forall i, o :: 0 <= i < 4 ==>
            (o in p[i].opportunities <==> o in opps && OfOrganization(o.organization, org) && o.stage == PipelineStages[i]))
  {
  }

  // ---------------------------------------------------------------------
  // crm_stats_view
  // ---------------------------------------------------------------------

  predicate OpenStage(o: Opportunity)
  {
    o.stage in PipelineStages
  }

  /** `filter(organization=org, stage__in=...)` as a condition. */
  function OpenPred(org: Option<Id>): Opportunity -> bool
  {
    (o: Opportunity) => OfOrganization(o.organization, org) && OpenStage(o)
  }

  /** The organization's opportunities at one of the open stages, in order. */
  function OpenPipeline(opps: seq<Opportunity>, org: Option<Id>): seq<Opportunity>
  {
    Filter(opps, OpenPred(org))
  }

  /**
   * `weighted_value` of the pipeline aggregate as written: the product of
   * the two column sums over a hundred (the `if Sum('probability')` test
   * is on an aggregate object and so always takes the product).
   */
  function PipelineWeightAsWritten(open: seq<Opportunity>): real
  {
    TotalValue(open) as real * ProbabilityTotal(open) as real / 100.0
  }

  /** The pipeline's weighted value as the per-opportunity `weighted_value` defines it. */
  function PipelineWeight(open: seq<Opportunity>): real
  {
    WeightedTotal(open)
  }

  /** Two opportunities worth 100.00 at 50% weigh 200.00 as written instead of 100.00. */
  lemma PipelineWeightOvercounts(o: Opportunity)
    requires o.estimatedValue == 10000 && o.probability == 50
    ensures PipelineWeightAsWritten([o, o]) == 20000.0
    ensures PipelineWeight([o, o]) == 10000.0
  {
    assert [o, o][..1] == [o];
    assert [o][..0] == [];
    assert TotalValue([o]) == 10000 && ProbabilityTotal([o]) == 50;
    assert TotalValue([o, o]) == 20000 && ProbabilityTotal([o, o]) == 100;
    assert WeightedValue(o) == 5000.0;
    assert WeightedTotal([o]) == 5000.0;
    assert WeightedTotal([o, o]) == 10000.0;
  }

  /** The two agree on a pipeline of at most one opportunity. */
  lemma PipelineWeightAgreesOnOne(open: seq<Opportunity>)
    requires |open| <= 1
    ensures PipelineWeightAsWritten(open) == PipelineWeight(open)
  {
    if |open| == 1 {
      var o := open[0];
      assert open[..0] == [];
      assert TotalValue(open) == o.estimatedValue;
      assert ProbabilityTotal(open) == o.probability;
      assert WeightedTotal(open) == WeightedValue(o);
    }
  }

  datatype CrmStats = CrmStats(
    totalContacts: nat,
    totalLeads: nat,
    totalOpportunities: nat,
    totalCampaigns: nat,
    totalPipelineValue: int,
    weightedPipelineValue: real,
    wonCount: nat,
    wonValue: int,
    conversionRate: real,
    averageDealSize: real)

  /** `converted / total * 100`, or 0 without leads. */
  function ConversionRate(converted: nat, total: nat): real
  {
    if total > 0 then converted as real / total as real * 100.0 else 0.0
  }

  /** `won value / won count`, or 0 without won opportunities. */
  function AverageDealSize(wonValue: int, wonCount: nat): real
  {
    if wonCount > 0 then wonValue as real / wonCount as real else 0.0
  }

  function Won(opps: seq<Opportunity>, org: Option<Id>): seq<Opportunity>
  {
    Filter(opps, (o: Opportunity) => OfOrganization(o.organization, org) && IsWon(o))
  }

  /** `crm_stats_view` without the per-status and per-stage dictionaries, with the weighted value corrected. */
  function Stats(contacts: seq<Contact>, leads: seq<Lead>, opps: seq<Opportunity>, campaigns: seq<Campaign>,
                 org: Option<Id>): CrmStats
  {
    var orgLeads := Filter(leads, (l: Lead) => OfOrganization(l.organization, org));
    var converted := Count(orgLeads, (l: Lead) => l.convertedOpportunity.Some?);
    var open := OpenPipeline(opps, org);
    var won := Won(opps, org);
    CrmStats(
      Count(contacts, (c: Contact) => OfOrganization(c.organization, org) && c.isActive),
      |orgLeads|,
      Count(opps, (o: Opportunity) => OfOrganization(o.organization, org)),
      Count(campaigns, (c: Campaign) => OfOrganization(c.organization, org)),
      TotalValue(open),
      PipelineWeight(open),
      |won|,
      TotalValue(won),
      ConversionRate(converted, |orgLeads|),
      AverageDealSize(TotalValue(won), |won|))
  }

  /**
   * The rates are guarded: no leads gives a conversion rate of 0, which
   * otherwise lies between 0 and 100; no won opportunity gives an
   * average deal size of 0.
   */
  lemma StatsGuards(contacts: seq<Contact>, leads: seq<Lead>, opps: seq<Opportunity>, campaigns: seq<Campaign>,
                    org: Option<Id>)
    ensures var r := Stats(contacts, leads, opps, campaigns, org);
      (r.totalLeads == 0 ==> r.conversionRate == 0.0)
      && 0.0 <= r.conversionRate <= 100.0
      && (r.wonCount == 0 ==> r.averageDealSize == 0.0)
  {
    var orgLeads := Filter(leads, (l: Lead) => OfOrganization(l.organization, org));
    var converted := Count(orgLeads, (l: Lead) => l.convertedOpportunity.Some?);
    if |orgLeads| > 0 {
      ShareBounds(converted, |orgLeads|);
    }
  }

  lemma TotalValueSnoc(a: seq<Opportunity>, o: Opportunity)
    ensures TotalValue(a + [o]) == TotalValue(a) + o.estimatedValue
    ensures WeightedTotal(a + [o]) == WeightedTotal(a) + WeightedValue(o)
  {
    assert (a + [o])[..|a|] == a;
  }

  /** Summing over two exclusive conditions separately adds up to summing over their disjunction `pq`. */
  lemma {:induction false} SumsDisjoint(s: seq<Opportunity>, p: Opportunity -> bool, q: Opportunity -> bool,
                                        pq: Opportunity -> bool)
    requires forall x :: pq(x) == (p(x) || q(x)) && !(p(x) && q(x))
    ensures TotalValue(Filter(s, p)) + TotalValue(Filter(s, q)) == TotalValue(Filter(s, pq))
    ensures WeightedTotal(Filter(s, p)) + WeightedTotal(Filter(s, q)) == WeightedTotal(Filter(s, pq))
  {
    if s != [] {
      var init := s[..|s| - 1];
      var o := s[|s| - 1];
      SumsDisjoint(init, p, q, pq);
      TotalValueSnoc(Filter(init, p), o);
      TotalValueSnoc(Filter(init, q), o);
      TotalValueSnoc(Filter(init, pq), o);
    }
  }

  /**
   * The open pipeline is split among the four stages: its value and its
   * weighted value are the sums of the four stages' values.
   */
  lemma OpenPipelineSplits(opps: seq<Opportunity>, org: Option<Id>)
    ensures TotalValue(OpenPipeline(opps, org))
         == TotalValue(AtStage(opps, org, "qualification")) + TotalValue(AtStage(opps, org, "needs_analysis"))
          + TotalValue(AtStage(opps, org, "proposal")) + TotalValue(AtStage(opps, org, "negotiation"))
    ensures WeightedTotal(OpenPipeline(opps, org))
         == WeightedTotal(AtStage(opps, org, "qualification")) + WeightedTotal(AtStage(opps, org, "needs_analysis"))
          + WeightedTotal(AtStage(opps, org, "proposal")) + WeightedTotal(AtStage(opps, org, "negotiation"))
  {
    var q1, q2 := AtStagePred(org, "qualification"), AtStagePred(org, "needs_analysis");
    var q3, q4 := AtStagePred(org, "proposal"), AtStagePred(org, "negotiation");
    SumsDisjoint(opps, q1, q2, EarlyPred(org));
    SumsDisjoint(opps, q3, q4, LatePred(org));
    SumsDisjoint(opps, EarlyPred(org), LatePred(org), AnyOpenPred(org));
    OpenIsAnyStage(opps, org);
  }

  /** At the first two pipeline stages. */
  function EarlyPred(org: Option<Id>): Opportunity -> bool
  {
    (o: Opportunity) => AtStagePred(org, "qualification")(o) || AtStagePred(org, "needs_analysis")(o)
  }

  /** At the last two pipeline stages. */
  function LatePred(org: Option<Id>): Opportunity -> bool
  {
    (o: Opportunity) => AtStagePred(org, "proposal")(o) || AtStagePred(org, "negotiation")(o)
  }

  function AnyOpenPred(org: Option<Id>): Opportunity -> bool
  {
    (o: Opportunity) => EarlyPred(org)(o) || LatePred(org)(o)
  }

  /** Being at one of the four stages, stage by stage, is being in the open pipeline. */
  lemma OpenIsAnyStage(opps: seq<Opportunity>, org: Option<Id>)
    ensures Filter(opps, AnyOpenPred(org)) == OpenPipeline(opps, org)
  {
    forall i | 0 <= i < |opps|
      ensures AnyOpenPred(org)(opps[i]) == OpenPred(org)(opps[i])
    {
      var o := opps[i];
      assert PipelineStages == ["qualification", "needs_analysis", "proposal", "negotiation"];
      assert OpenStage(o) <==> (o.stage == PipelineStages[0] || o.stage == PipelineStages[1]
                                || o.stage == PipelineStages[2] || o.stage == PipelineStages[3]);
      assert AtStagePred(org, "qualification")(o) == (OfOrganization(o.organization, org) && o.stage == "qualification");
      assert AtStagePred(org, "needs_analysis")(o) == (OfOrganization(o.organization, org) && o.stage == "needs_analysis");
      assert AtStagePred(org, "proposal")(o) == (OfOrganization(o.organization, org) && o.stage == "proposal");
      assert AtStagePred(org, "negotiation")(o) == (OfOrganization(o.organization, org) && o.stage == "negotiation");
      assert EarlyPred(org)(o) == (OfOrganization(o.organization, org)
                                   && (o.stage == "qualification" || o.stage == "needs_analysis"));
      assert LatePred(org)(o) == (OfOrganization(o.organization, org)
                                  && (o.stage == "proposal" || o.stage == "negotiation"));
      assert OpenPred(org)(o) == (OfOrganization(o.organization, org) && OpenStage(o));
    }
    FilterAgree(opps, AnyOpenPred(org), OpenPred(org));
  }

  /**
   * The statistics and the pipeline agree: the total pipeline value is
   * the sum of the pipeline's stage totals, and the corrected weighted
   * value is the sum of its stage weighted values.
   */
  lemma StatsAgreeWithPipeline(contacts: seq<Contact>, leads: seq<Lead>, opps: seq<Opportunity>,
                               campaigns: seq<Campaign>, org: Option<Id>)
    ensures var r := Stats(contacts, leads, opps, campaigns, org);
      var p := Pipeline(opps, org);
      r.totalPipelineValue == p[0].totalValue + p[1].totalValue + p[2].totalValue + p[3].totalValue
      && r.weightedPipelineValue == p[0].weightedValue + p[1].weightedValue + p[2].weightedValue + p[3].weightedValue
  {
    OpenPipelineSplits(opps, org);
  }

  // ---------------------------------------------------------------------
  // The record store
  // ---------------------------------------------------------------------

  class CrmStore {
    var leads: map<Id, Lead>
    var contacts: map<Id, Contact>
    var opportunities: map<Id, Opportunity>
    var notes: seq<Note>

    function State(): Crm
      reads this
    {
      Crm(leads, contacts, opportunities, notes)
    }

    ghost predicate Valid()
      reads this
    {
      CrmValid(State())
    }

    constructor ()
      ensures Valid()
      ensures leads == map[] && contacts == map[] && opportunities == map[] && notes == []
    {
      leads := map[];
      contacts := map[];
      opportunities := map[];
      notes := [];
    }

    method ConvertLead(org: Option<Id>, pk: Id, requestValid: bool, user: Id,
                       contactId: Id, opportunityId: Id, now: int) returns (out: ConvertOutcome)
      requires Valid()
      modifies this
      ensures Valid()
      ensures (State(), out) == ConvertLeadEffect(old(State()), org, pk, requestValid, user, contactId, opportunityId, now)
    {
      ghost var s0 := State();
      ConvertLeadKeepsValid(s0, org, pk, requestValid, user, contactId, opportunityId, now);
      if pk !in leads || !OfOrganization(leads[pk].organization, org) {
        return LeadNotFound;
      }
      var lead := leads[pk];
      if IsConverted(lead) {
        return LeadAlreadyConverted;
      }
      if !requestValid {
        return InvalidConversionRequest;
      }
      ConvertLeadWrites(s0, org, pk, requestValid, user, contactId, opportunityId, now);
      out := WriteConversion(pk, user, contactId, opportunityId, now);
    }

    /** The writes of an accepted conversion, in the view's order: the contact, then the opportunity and the lead. */
    method WriteConversion(pk: Id, user: Id, contactId: Id, opportunityId: Id, now: int) returns (out: ConvertOutcome)
      requires pk in leads && !IsConverted(leads[pk])
      modifies this
      ensures (State(), out) == ConversionWrites(old(State()), pk, user, contactId, opportunityId, now)
    {
      ghost var s0 := State();
      var lead := leads[pk];
      var contact := ConvertedContact(lead, user);
      contacts := contacts[contactId := contact];
      if lead.estimatedValue.None? || lead.expectedCloseDate.None? {
        assert State() == s0.(contacts := s0.contacts[contactId := contact]);
        return ConversionCrashed;
      }
      var opportunity := Convert(lead, user, contactId, now).opportunity;
      opportunities := opportunities[opportunityId := opportunity];
      leads := leads[pk := ConvertedLead(lead, contactId, opportunityId, now)];
      out := LeadConverted(contactId, opportunityId);
      assert State() == Crm(s0.leads[pk := ConvertedLead(lead, contactId, opportunityId, now)],
                            s0.contacts[contactId := contact], s0.opportunities[opportunityId := opportunity], s0.notes);
    }

    method UpdateOpportunityStage(org: Option<Id>, pk: Id, stage: Option<string>, reason: Option<string>,
                                  user: Id, today: Date) returns (out: StageOutcome)
      requires Valid()
      modifies this
      ensures Valid()
      ensures (State(), out) == UpdateStageEffect(old(State()), org, pk, stage, reason, user, today)
    {
      ghost var s0 := State();
      UpdateStageKeepsValid(s0, org, pk, stage, reason, user, today);
      if pk !in opportunities || !OfOrganization(opportunities[pk].organization, org) {
        return OpportunityNotFound;
      }
      var valid := ValidateStageUpdate(stage, reason);
      if valid.None? {
        return InvalidStageRequest;
      }
      var (st, why) := valid.value;
      var (o, note) := UpdateStage(opportunities[pk], pk, st, why, user, today);
      opportunities := opportunities[pk := o];
      if note.Some? {
        notes := notes + [note.value];
      }
      out := StageUpdated(o.stage);
      assert State() == StoreStage(s0, pk, o, note);
    }
  }
}
