/**
 * The dashboard report: a read-only fold over the stored leads and
 * opportunities, optionally restricted to one owner's records.
 */
module Stats {
  import opened Lists
  import opened Records
  import opened Http

  /** The report over the given records, with no owner restriction. */
  function Tally(leads: seq<Lead>, opportunities: seq<Opportunity>): (t: DashboardStats)
    ensures t.totalLeads == |leads| && t.totalOpportunities == |opportunities|
    ensures t.newLeads <= t.totalLeads && t.contactedLeads <= t.totalLeads && t.qualifiedLeads <= t.totalLeads
    ensures t.discoveryOpportunities <= t.totalOpportunities && t.proposalOpportunities <= t.totalOpportunities
    ensures t.wonOpportunities <= t.totalOpportunities && t.lostOpportunities <= t.totalOpportunities
    ensures (forall i :: 0 <= i < |opportunities| ==> opportunities[i].value >= 0) ==> 0 <= t.wonValue <= t.totalValue
  {
    SumSplit(opportunities, OpportunityInStage(WON), ValueOf);
    DashboardStats(
      |leads|,
      |Filter(leads, LeadInStatus(NEW))|,
      |Filter(leads, LeadInStatus(CONTACTED))|,
      |Filter(leads, LeadInStatus(QUALIFIED))|,
      |opportunities|,
      |Filter(opportunities, OpportunityInStage(DISCOVERY))|,
      |Filter(opportunities, OpportunityInStage(PROPOSAL))|,
      |Filter(opportunities, OpportunityInStage(WON))|,
      |Filter(opportunities, OpportunityInStage(LOST))|,
      Sum(opportunities, ValueOf),
      Sum(Filter(opportunities, OpportunityInStage(WON)), ValueOf))
  }

  /** `GET /dashboard/stats[?ownerId=]`: the report over one owner's records when `ownerId` is given. */
  function Scoped(leads: seq<Lead>, opportunities: seq<Opportunity>, ownerId: Option<string>): (t: DashboardStats)
    ensures !Given(ownerId) ==> t == Tally(leads, opportunities)
    ensures Given(ownerId) ==> t.totalLeads == |Filter(leads, LeadOwnedBy(ownerId.value))|
    ensures Given(ownerId) ==> t.totalOpportunities == |Filter(opportunities, OpportunityOwnedBy(ownerId.value))|
    ensures t.totalLeads <= |leads| && t.totalOpportunities <= |opportunities|
  {
    if Given(ownerId) then
      Tally(Filter(leads, LeadOwnedBy(ownerId.value)), Filter(opportunities, OpportunityOwnedBy(ownerId.value)))
    else
      Tally(leads, opportunities)
  }

  ghost predicate KnownStatuses(leads: seq<Lead>) {
    forall i :: 0 <= i < |leads| ==> leads[i].status in LeadStatuses
  }

  ghost predicate KnownStages(opportunities: seq<Opportunity>) {
    forall i :: 0 <= i < |opportunities| ==> opportunities[i].stage in Stages
  }

  /** When every status is one of the three known ones, the three counts add up to the total. */
  lemma {:induction false} StatusCountsCoverLeads(leads: seq<Lead>, opportunities: seq<Opportunity>)
    requires KnownStatuses(leads)
    ensures var t := Tally(leads, opportunities);
      t.newLeads + t.contactedLeads + t.qualifiedLeads == t.totalLeads
  {
    StatusCountsCover(leads);
  }

  lemma {:induction false} StatusCountsCover(leads: seq<Lead>)
    requires KnownStatuses(leads)
    ensures |Filter(leads, LeadInStatus(NEW))| + |Filter(leads, LeadInStatus(CONTACTED))|
      + |Filter(leads, LeadInStatus(QUALIFIED))| == |leads|
  {
    if leads != [] {
      StatusCountsCover(leads[1..]);
      FilterLengthStep(leads, LeadInStatus(NEW));
      FilterLengthStep(leads, LeadInStatus(CONTACTED));
      FilterLengthStep(leads, LeadInStatus(QUALIFIED));
    }
  }

  /** When every stage is one of the four known ones, the four counts add up to the total. */
  lemma {:induction false} StageCountsCoverOpportunities(leads: seq<Lead>, opportunities: seq<Opportunity>)
    requires KnownStages(opportunities)
    ensures var t := Tally(leads, opportunities);
      t.discoveryOpportunities + t.proposalOpportunities + t.wonOpportunities + t.lostOpportunities
      == t.totalOpportunities
  {
    StageCountsCover(opportunities);
  }

  lemma {:induction false} StageCountsCover(opportunities: seq<Opportunity>)
    requires KnownStages(opportunities)
    ensures |Filter(opportunities, OpportunityInStage(DISCOVERY))| + |Filter(opportunities, OpportunityInStage(PROPOSAL))|
      + |Filter(opportunities, OpportunityInStage(WON))| + |Filter(opportunities, OpportunityInStage(LOST))|
      == |opportunities|
  {
    if opportunities != [] {
      StageCountsCover(opportunities[1..]);
      FilterLengthStep(opportunities, OpportunityInStage(DISCOVERY));
      FilterLengthStep(opportunities, OpportunityInStage(PROPOSAL));
      FilterLengthStep(opportunities, OpportunityInStage(WON));
      FilterLengthStep(opportunities, OpportunityInStage(LOST));
    }
  }

  /** The won value is the part of the total value not carried by the other stages. */
  lemma WonValueIsPartOfTotal(leads: seq<Lead>, opportunities: seq<Opportunity>)
    ensures var t := Tally(leads, opportunities);
      t.wonValue + Sum(Filter(opportunities, Not(OpportunityInStage(WON))), ValueOf) == t.totalValue
  {
    SumSplit(opportunities, OpportunityInStage(WON), ValueOf);
  }

  function Bump(b: bool): nat { if b then 1 else 0 }

  /** Appending one lead moves the total and exactly the counter of its status up by one. */
  lemma TallyAfterNewLead(leads: seq<Lead>, opportunities: seq<Opportunity>, l: Lead)
    ensures var t, t' := Tally(leads, opportunities), Tally(leads + [l], opportunities);
      t' == t.(totalLeads := t.totalLeads + 1,
               newLeads := t.newLeads + Bump(l.status == NEW),
               contactedLeads := t.contactedLeads + Bump(l.status == CONTACTED),
               qualifiedLeads := t.qualifiedLeads + Bump(l.status == QUALIFIED))
  {
    FilterAppendOne(leads, l, LeadInStatus(NEW));
    FilterAppendOne(leads, l, LeadInStatus(CONTACTED));
    FilterAppendOne(leads, l, LeadInStatus(QUALIFIED));
  }

  /**
   * Appending one opportunity moves the total count, the count of its stage
   * and the total value; the won value moves only when it is won.
   */
  lemma TallyAfterNewOpportunity(leads: seq<Lead>, opportunities: seq<Opportunity>, o: Opportunity)
    ensures var t, t' := Tally(leads, opportunities), Tally(leads, opportunities + [o]);
      t' == t.(totalOpportunities := t.totalOpportunities + 1,
               discoveryOpportunities := t.discoveryOpportunities + Bump(o.stage == DISCOVERY),
               proposalOpportunities := t.proposalOpportunities + Bump(o.stage == PROPOSAL),
               wonOpportunities := t.wonOpportunities + Bump(o.stage == WON),
               lostOpportunities := t.lostOpportunities + Bump(o.stage == LOST),
               totalValue := t.totalValue + o.value,
               wonValue := t.wonValue + if o.stage == WON then o.value else 0)
  {
    var won := OpportunityInStage(WON);
    FilterAppendOne(opportunities, o, OpportunityInStage(DISCOVERY));
    FilterAppendOne(opportunities, o, OpportunityInStage(PROPOSAL));
    FilterAppendOne(opportunities, o, won);
    FilterAppendOne(opportunities, o, OpportunityInStage(LOST));
    SumOfAppendOne(opportunities, o);
    if o.stage == WON {
      SumOfAppendOne(Filter(opportunities, won), o);
    }
  }

  lemma SumOfAppendOne(opportunities: seq<Opportunity>, o: Opportunity)
    ensures Sum(opportunities + [o], ValueOf) == Sum(opportunities, ValueOf) + o.value
  {
    SumAppend(opportunities, [o], ValueOf);
    assert Sum([o], ValueOf) == o.value + Sum([o][1..], ValueOf);
  }

  /**
   * An owner's report counts, per status and stage, exactly that owner's
   * records: restricting to the owner and then to a status is the same as
   * the other way round.
   */
  lemma ScopedCountsOwnersRecords(leads: seq<Lead>, opportunities: seq<Opportunity>, ownerId: string)
    requires ownerId != ""
    ensures var t := Scoped(leads, opportunities, Some(ownerId));
      t.newLeads == |Filter(Filter(leads, LeadInStatus(NEW)), LeadOwnedBy(ownerId))|
      && t.wonOpportunities == |Filter(Filter(opportunities, OpportunityInStage(WON)), OpportunityOwnedBy(ownerId))|
      && t.wonValue == Sum(Filter(Filter(opportunities, OpportunityInStage(WON)), OpportunityOwnedBy(ownerId)), ValueOf)
  {
    FilterCommutes(leads, LeadOwnedBy(ownerId), LeadInStatus(NEW));
    FilterCommutes(opportunities, OpportunityOwnedBy(ownerId), OpportunityInStage(WON));
  }
}
