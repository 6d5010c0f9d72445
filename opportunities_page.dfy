/**
 * The Opportunities page of the client: the list it holds, the title search,
 * the pipeline and won values, the deal counts and win rate derived from it,
 * and the list transforms its handlers apply after each API call.
 */
module OpportunitiesPage {
  import opened Lists
  import opened Records
  import opened Validation
  import opened Search
  import opened Client
  import opened Stats
  import opened Server

  /** The search box: the lower-cased title contains the lower-cased term. */
  function TitleMatches(term: string): Opportunity -> bool {
    (o: Opportunity) => Includes(Lower(o.title), Lower(term))
  }

  /** `filteredOpportunities`. */
  function FilteredOpportunities(opportunities: seq<Opportunity>, term: string): (r: seq<Opportunity>)
    ensures forall i :: 0 <= i < |r| ==> r[i] in opportunities && TitleMatches(term)(r[i])
    ensures forall i :: 0 <= i < |opportunities| && TitleMatches(term)(opportunities[i]) ==> opportunities[i] in r
  {
    Filter(opportunities, TitleMatches(term))
  }

  /** An empty search box shows every opportunity. */
  lemma EmptySearchKeepsAll(opportunities: seq<Opportunity>)
    ensures FilteredOpportunities(opportunities, "") == opportunities
  {
    forall i | 0 <= i < |opportunities|
      ensures TitleMatches("")(opportunities[i])
    {
      IncludesEmpty(Lower(opportunities[i].title));
    }
    FilterKeepsAll(opportunities, TitleMatches(""));
  }

  /**
   * The search keeps the page's order and each matching deal once: it
   * distributes over concatenation, and a single deal is kept exactly when
   * its title matches.
   */
  lemma FilteredOpportunitiesKeepsOrder(a: seq<Opportunity>, b: seq<Opportunity>, o: Opportunity, term: string)
    ensures FilteredOpportunities(a + b, term) == FilteredOpportunities(a, term) + FilteredOpportunities(b, term)
    ensures FilteredOpportunities([o], term) == if TitleMatches(term)(o) then [o] else []
  {
    FilterAppend(a, b, TitleMatches(term));
    FilterSingleton(o, TitleMatches(term));
  }

  /** Upper- and lower-case letters in the search term are interchangeable. */
  lemma SearchIgnoresCase(opportunities: seq<Opportunity>, term: string)
    ensures FilteredOpportunities(opportunities, Lower(term)) == FilteredOpportunities(opportunities, term)
  {
    LowerIdempotent(term);
    FilterCongruent(opportunities, TitleMatches(Lower(term)), TitleMatches(term));
  }

  /** A deal is active while it is neither won nor lost. */
  function IsActive(): Opportunity -> bool {
    (o: Opportunity) => o.stage != WON && o.stage != LOST
  }

  /** `totalPipelineValue`: the value of the shown active deals. */
  function PipelineValue(opportunities: seq<Opportunity>, term: string): (v: int)
    ensures (forall i :: 0 <= i < |opportunities| ==> opportunities[i].value >= 0) ==> v >= 0
  {
    Sum(Filter(FilteredOpportunities(opportunities, term), IsActive()), ValueOf)
  }

  /** `wonValue`: the value of the shown won deals. */
  function WonValue(opportunities: seq<Opportunity>, term: string): (v: int)
    ensures (forall i :: 0 <= i < |opportunities| ==> opportunities[i].value >= 0) ==> v >= 0
  {
    Sum(Filter(FilteredOpportunities(opportunities, term), OpportunityInStage(WON)), ValueOf)
  }

  /** The "active deals" count. */
  function ActiveDeals(opportunities: seq<Opportunity>, term: string): (n: nat)
    ensures n <= |FilteredOpportunities(opportunities, term)| <= |opportunities|
  {
    |Filter(FilteredOpportunities(opportunities, term), IsActive())|
  }

  /** The "closed deals" count: the shown won deals. */
  function ClosedDeals(opportunities: seq<Opportunity>, term: string): (n: nat)
    ensures n <= |FilteredOpportunities(opportunities, term)| <= |opportunities|
  {
    |Filter(FilteredOpportunities(opportunities, term), OpportunityInStage(WON))|
  }

  /** Every deal is exactly one of active, won or lost, so their values add up to the whole. */
  lemma {:induction false} ValuesByOutcome(s: seq<Opportunity>)
    ensures Sum(Filter(s, IsActive()), ValueOf) + Sum(Filter(s, OpportunityInStage(WON)), ValueOf)
            + Sum(Filter(s, OpportunityInStage(LOST)), ValueOf) == Sum(s, ValueOf)
  {
    if s != [] {
      ValuesByOutcome(s[1..]);
    }
  }

  /** The same split for the counts. */
  lemma {:induction false} CountsByOutcome(s: seq<Opportunity>)
    ensures |Filter(s, IsActive())| + |Filter(s, OpportunityInStage(WON))|
            + |Filter(s, OpportunityInStage(LOST))| == |s|
  {
    if s != [] {
      CountsByOutcome(s[1..]);
    }
  }

  /**
   * The pipeline value, the won value and the value of the lost deals
   * together make up the value of everything shown; likewise the counts.
   */
  lemma CardsCoverShownDeals(opportunities: seq<Opportunity>, term: string)
    ensures var shown := FilteredOpportunities(opportunities, term);
      PipelineValue(opportunities, term) + WonValue(opportunities, term)
      + Sum(Filter(shown, OpportunityInStage(LOST)), ValueOf) == Sum(shown, ValueOf)
    ensures var shown := FilteredOpportunities(opportunities, term);
      ActiveDeals(opportunities, term) + ClosedDeals(opportunities, term)
      + |Filter(shown, OpportunityInStage(LOST))| == |shown|
  {
    var shown := FilteredOpportunities(opportunities, term);
    ValuesByOutcome(shown);
    CountsByOutcome(shown);
  }

  /** Under known stages the active deals are exactly those in Discovery or Proposal. */
  lemma {:induction false} ActiveIsDiscoveryOrProposal(s: seq<Opportunity>)
    requires KnownStages(s)
    ensures |Filter(s, IsActive())|
      == |Filter(s, OpportunityInStage(DISCOVERY))| + |Filter(s, OpportunityInStage(PROPOSAL))|
  {
    if s != [] {
      assert KnownStages(s[1..]) by {
        forall i | 0 <= i < |s[1..]|
          ensures s[1..][i].stage in Stages
        {
          assert s[1..][i] == s[i + 1];
        }
      }
      ActiveIsDiscoveryOrProposal(s[1..]);
    }
  }

  /**
   * With an empty search box the won value and the closed-deal count are
   * the dashboard report's, and, under known stages, the active deals are
   * its Discovery and Proposal counts together.
   */
  lemma CardsAgreeWithDashboard(leads: seq<Lead>, opportunities: seq<Opportunity>)
    ensures var t := Tally(leads, opportunities);
      WonValue(opportunities, "") == t.wonValue
      && ClosedDeals(opportunities, "") == t.wonOpportunities
      && PipelineValue(opportunities, "") + WonValue(opportunities, "")
         + Sum(Filter(opportunities, OpportunityInStage(LOST)), ValueOf) == t.totalValue
    ensures KnownStages(opportunities) ==>
      var t := Tally(leads, opportunities);
      ActiveDeals(opportunities, "") == t.discoveryOpportunities + t.proposalOpportunities
  {
    EmptySearchKeepsAll(opportunities);
    ValuesByOutcome(opportunities);
    if KnownStages(opportunities) {
      ActiveIsDiscoveryOrProposal(opportunities);
    }
  }

  /**
   * The win-rate card: no figure when nothing is shown (the page displays
   * 0%), otherwise the shown won deals out of the shown deals.
   */
  datatype WinRate = NoDeals | Ratio(won: nat, total: nat)

  function Rate(opportunities: seq<Opportunity>, term: string): (r: WinRate)
    ensures r.NoDeals? <==> FilteredOpportunities(opportunities, term) == []
    ensures r.Ratio? ==>
      r.total == |FilteredOpportunities(opportunities, term)| && 0 < r.total
      && r.won == ClosedDeals(opportunities, term) && r.won <= r.total
  {
    var shown := FilteredOpportunities(opportunities, term);
    if |shown| > 0 then Ratio(ClosedDeals(opportunities, term), |shown|) else NoDeals
  }

  /** Whole-number division by repeated subtraction. */
  function Quotient(n: nat, d: nat): (q: nat)
    requires 0 < d
    ensures q * d <= n < (q + 1) * d
    decreases n
  {
    if n < d then 0
    else
      var q' := Quotient(n - d, d);
      assert (q' + 1) * d == q' * d + d;
      q' + 1
  }

  /** Dividing `k * d + r` by `d` gives `k` when the remainder `r` is below `d`. */
  lemma {:induction false} QuotientOf(k: nat, r: nat, d: nat)
    requires r < d
    ensures Quotient(k * d + r, d) == k
  {
    if k > 0 {
      assert k * d + r - d == (k - 1) * d + r;
      QuotientOf(k - 1, r, d);
    }
  }

  /** A number below `(k + 1) * d` divides by `d` to at most `k`. */
  lemma {:induction false} QuotientBelow(n: nat, d: nat, k: nat)
    requires 0 < d && n < (k + 1) * d
    ensures Quotient(n, d) <= k
  {
    if n >= d {
      assert k > 0;
      assert n - d < k * d;
      QuotientBelow(n - d, d, k - 1);
    }
  }

  /**
   * `Math.round(won / total * 100)` in exact arithmetic: the whole number
   * nearest to `100 * won / total`, halves rounded up.
   */
  function Percent(won: nat, total: nat): (p: nat)
    requires 0 < total
    ensures 2 * total * p <= 200 * won + total < 2 * total * (p + 1)
  {
    Quotient(200 * won + total, 2 * total)
  }

  /** The percentage shown on the card: 0 with no deals. */
  function Shown(r: WinRate): (p: nat)
    ensures r.NoDeals? ==> p == 0
    ensures r.Ratio? && 0 < r.total && r.won <= r.total ==>
      p <= 100 && (r.won == 0 ==> p == 0) && (r.won == r.total ==> p == 100)
  {
    match r
    case NoDeals => 0
    case Ratio(won, total) =>
      if total == 0 then 0
      else
        var p := Percent(won, total);
        assert won <= total ==> p <= 100 && (won == 0 ==> p == 0) && (won == total ==> p == 100) by {
          if won <= total {
            PercentBounds(won, total);
          }
        }
        p
  }

  /** The card shows a whole percentage: 0 with no wins, 100 when every shown deal is won. */
  lemma PercentBounds(won: nat, total: nat)
    requires 0 < total && won <= total
    ensures Percent(won, total) <= 100
    ensures won == 0 ==> Percent(won, total) == 0
    ensures won == total ==> Percent(won, total) == 100
  {
    QuotientBelow(200 * won + total, 2 * total, 100);
    if won == 0 {
      QuotientOf(0, total, 2 * total);
    }
    if won == total {
      assert 200 * won + total == 100 * (2 * total) + total;
      QuotientOf(100, total, 2 * total);
    }
  }

  /** An empty page shows a 0% win rate; otherwise the rate lies between 0 and 100. */
  lemma WinRateShown(opportunities: seq<Opportunity>, term: string)
    ensures FilteredOpportunities(opportunities, term) == [] ==> Shown(Rate(opportunities, term)) == 0
    ensures Shown(Rate(opportunities, term)) <= 100
  {
    var r := Rate(opportunities, term);
    if r.Ratio? {
      PercentBounds(r.won, r.total);
    }
  }

  /** A rep's page asks only for that rep's opportunities, in every stage. */
  lemma LoadScopesReps(opportunities: seq<Opportunity>, user: PublicUser)
    ensures user.role == REP && user.id != "" ==>
      var shown := OpportunitiesQuery(opportunities, OwnerScope(Some(user)), None);
      (forall i :: 0 <= i < |shown| ==> shown[i].ownerId == user.id)
      && (forall i :: 0 <= i < |opportunities| && opportunities[i].ownerId == user.id ==> opportunities[i] in shown)
    ensures user.role != REP ==> OpportunitiesQuery(opportunities, OwnerScope(Some(user)), None) == opportunities
  {
  }

  function SetStage(stage: string): Opportunity -> Opportunity {
    (o: Opportunity) => o.(stage := stage)
  }

  /** A stage change touches only the stage of the deals with that id. */
  lemma StageChangeOnlyMovesStage(opportunities: seq<Opportunity>, id: string, stage: string)
    ensures var r := ReplaceWhere(opportunities, OpportunityWithId(id), SetStage(stage));
      |r| == |opportunities|
      && forall i :: 0 <= i < |r| ==>
           r[i] == opportunities[i].(stage := if opportunities[i].id == id then stage else opportunities[i].stage)
  {
  }

  /**
   * The page's delete removes every deal with that id and agrees with the
   * server's, which removes the first, while ids are unique.
   */
  lemma DeleteRemovesEveryMatch(opportunities: seq<Opportunity>, id: string)
    ensures var r := Filter(opportunities, Not(OpportunityWithId(id)));
      (forall i :: 0 <= i < |r| ==> r[i].id != id)
      && (forall i :: 0 <= i < |opportunities| && opportunities[i].id != id ==> opportunities[i] in r)
      && |r| == |opportunities| - |Filter(opportunities, OpportunityWithId(id))|
    ensures AtMostOne(opportunities, OpportunityWithId(id)) ==>
      Filter(opportunities, Not(OpportunityWithId(id))) == RemoveFirst(opportunities, OpportunityWithId(id))
  {
    FilterSplitCount(opportunities, OpportunityWithId(id));
    if AtMostOne(opportunities, OpportunityWithId(id)) {
      RemoveFirstIsFilterWhenUnique(opportunities, OpportunityWithId(id));
    }
  }

  /** The delete keeps the remaining deals in the page's order, each once. */
  lemma DeleteKeepsOrder(a: seq<Opportunity>, b: seq<Opportunity>, o: Opportunity, id: string)
    ensures Filter(a + b, Not(OpportunityWithId(id)))
         == Filter(a, Not(OpportunityWithId(id))) + Filter(b, Not(OpportunityWithId(id)))
    ensures Filter([o], Not(OpportunityWithId(id))) == if o.id == id then [] else [o]
  {
    FilterAppend(a, b, Not(OpportunityWithId(id)));
    FilterSingleton(o, Not(OpportunityWithId(id)));
  }

  /** The add dialog; a `None` value is an empty field. */
  datatype OpportunityForm = OpportunityForm(title: string, value: Option<int>, stage: string, leadId: string)

  /** The edit dialog, filled from the selected opportunity. */
  datatype EditForm = EditForm(title: string, value: int, stage: string)

  /** The body of `PUT /opportunities/:id` from the edit dialog. */
  function EditPatch(form: EditForm): OpportunityPatch {
    OpportunityPatch(None, Some(form.title), Some(form.value), Some(form.stage), None, None)
  }

  /** The body of `PUT /opportunities/:id` from the stage selector. */
  function StagePatch(stage: string): OpportunityPatch {
    OpportunityPatch(None, None, None, Some(stage), None, None)
  }

  class Opportunities {
    var opportunities: seq<Opportunity>
    var searchTerm: string

    constructor ()
      ensures opportunities == [] && searchTerm == ""
    {
      opportunities, searchTerm := [], "";
    }

    /** `setSearchTerm`. */
    method Search(term: string)
      modifies this
      ensures searchTerm == term && opportunities == old(opportunities)
    {
      searchTerm := term;
    }

    /** `loadOpportunities`: the owner filter it asks for, and the list it then holds. */
    method LoadOpportunities(user: Option<PublicUser>, reply: Reply<seq<Opportunity>>) returns (ownerId: Option<string>)
      modifies this
      ensures ownerId == OwnerScope(user)
      ensures opportunities == if reply.Data? then reply.value else old(opportunities)
      ensures searchTerm == old(searchTerm)
    {
      ownerId := OwnerScope(user);
      if reply.Data? {
        opportunities := reply.value;
      }
    }

    /** `handleAddOpportunity`: no request without a title, a value, a lead and a signed-in user. */
    method AddOpportunity(form: OpportunityForm, user: Option<PublicUser>, reply: Reply<Opportunity>)
      returns (request: Option<OpportunityInput>)
      modifies this
      ensures request.Some? <==> form.title != "" && form.value.Some? && form.leadId != "" && user.Some?
      ensures request.Some? ==>
        request.value == OpportunityInput(form.title, form.value.value, form.stage, user.value.id, form.leadId)
      ensures opportunities ==
        if request.Some? && reply.Data? then old(opportunities) + [reply.value] else old(opportunities)
      ensures searchTerm == old(searchTerm)
    {
      if form.title == "" || form.value.None? || form.leadId == "" {
        return None;
      }
      if user.None? {
        return None;
      }
      request := Some(OpportunityInput(form.title, form.value.value, form.stage, user.value.id, form.leadId));
      if reply.Data? {
        opportunities := opportunities + [reply.value];
      }
    }

    /** `handleUpdateOpportunity`: on success every deal with the selected id becomes the server's answer. */
    method UpdateOpportunity(selected: Option<Opportunity>, form: EditForm, reply: Reply<Opportunity>)
      returns (request: Option<(string, OpportunityPatch)>)
      modifies this
      ensures request == if selected.None? then None else Some((selected.value.id, EditPatch(form)))
      ensures opportunities ==
        if selected.Some? && reply.Data?
        then ReplaceWhere(old(opportunities), OpportunityWithId(selected.value.id), Always(reply.value))
        else old(opportunities)
      ensures searchTerm == old(searchTerm)
    {
      if selected.None? {
        return None;
      }
      request := Some((selected.value.id, EditPatch(form)));
      if reply.Data? {
        opportunities := ReplaceWhere(opportunities, OpportunityWithId(selected.value.id), Always(reply.value));
      }
    }

    /** `handleStageChange`: on success only the stage of the deals with that id changes. */
    method ChangeStage(id: string, stage: string, reply: Reply<Opportunity>) returns (request: (string, OpportunityPatch))
      modifies this
      ensures request == (id, StagePatch(stage))
      ensures opportunities ==
        if reply.Data? then ReplaceWhere(old(opportunities), OpportunityWithId(id), SetStage(stage))
        else old(opportunities)
      ensures searchTerm == old(searchTerm)
    {
      request := (id, StagePatch(stage));
      if reply.Data? {
        opportunities := ReplaceWhere(opportunities, OpportunityWithId(id), SetStage(stage));
      }
    }

    /** `handleDeleteOpportunity`: on success every deal with that id leaves the list. */
    method DeleteOpportunity(id: string, reply: Reply<()>)
      modifies this
      ensures opportunities ==
        if reply.Data? then Filter(old(opportunities), Not(OpportunityWithId(id))) else old(opportunities)
      ensures searchTerm == old(searchTerm)
    {
      if reply.Data? {
        opportunities := Filter(opportunities, Not(OpportunityWithId(id)));
      }
    }
  }
}
