/**
 * The Leads page of the client: the list of leads it holds, the search
 * filter and stat cards derived from it, and the list transforms its handlers
 * apply after each API call. The answer of each call is a parameter; the
 * request a handler would send is its result.
 */
module LeadsPage {
  import opened Lists
  import opened Records
  import opened Http
  import opened Auth
  import opened Validation
  import opened Search
  import opened Client
  import opened Stats
  import opened Server

  /** The search box: the lower-cased name or email contains the lower-cased term. */
  function Matches(term: string): Lead -> bool {
    (l: Lead) => Includes(Lower(l.name), Lower(term)) || Includes(Lower(l.email), Lower(term))
  }

  /** `filteredLeads`. */
  function FilteredLeads(leads: seq<Lead>, term: string): (r: seq<Lead>)
    ensures forall i :: 0 <= i < |r| ==> r[i] in leads && Matches(term)(r[i])
    ensures forall i :: 0 <= i < |leads| && Matches(term)(leads[i]) ==> leads[i] in r
  {
    Filter(leads, Matches(term))
  }

  /** An empty search box shows every lead. */
  lemma EmptySearchKeepsAll(leads: seq<Lead>)
    ensures FilteredLeads(leads, "") == leads
  {
    forall i | 0 <= i < |leads|
      ensures Matches("")(leads[i])
    {
      IncludesEmpty(Lower(leads[i].name));
    }
    FilterKeepsAll(leads, Matches(""));
  }

  /**
   * The search keeps the page's order and each matching lead once: it
   * distributes over concatenation, and a single lead is kept exactly when
   * it matches.
   */
  lemma FilteredLeadsKeepsOrder(a: seq<Lead>, b: seq<Lead>, l: Lead, term: string)
    ensures FilteredLeads(a + b, term) == FilteredLeads(a, term) + FilteredLeads(b, term)
    ensures FilteredLeads([l], term) == if Matches(term)(l) then [l] else []
  {
    FilterAppend(a, b, Matches(term));
    FilterSingleton(l, Matches(term));
  }

  /** Upper- and lower-case letters in the search term are interchangeable. */
  lemma SearchIgnoresCase(leads: seq<Lead>, term: string)
    ensures FilteredLeads(leads, Lower(term)) == FilteredLeads(leads, term)
  {
    LowerIdempotent(term);
    FilterCongruent(leads, Matches(Lower(term)), Matches(term));
  }

  /** The four stat cards above the table. */
  datatype LeadCards = LeadCards(total: nat, newLeads: nat, contacted: nat, qualified: nat)

  function Cards(leads: seq<Lead>, term: string): (c: LeadCards)
    ensures c.total == |FilteredLeads(leads, term)| <= |leads|
    ensures c.newLeads <= c.total && c.contacted <= c.total && c.qualified <= c.total
  {
    var shown := FilteredLeads(leads, term);
    LeadCards(|shown|, |Filter(shown, LeadInStatus(NEW))|,
              |Filter(shown, LeadInStatus(CONTACTED))|, |Filter(shown, LeadInStatus(QUALIFIED))|)
  }

  /** With an empty search box the cards show the dashboard report's lead counts for the same leads. */
  lemma CardsAgreeWithDashboard(leads: seq<Lead>, opportunities: seq<Opportunity>)
    ensures var c, t := Cards(leads, ""), Tally(leads, opportunities);
      c == LeadCards(t.totalLeads, t.newLeads, t.contactedLeads, t.qualifiedLeads)
  {
    EmptySearchKeepsAll(leads);
  }

  /** When every status is a known one, the three status cards add up to the total card. */
  lemma CardsCoverShownLeads(leads: seq<Lead>, term: string)
    requires KnownStatuses(leads)
    ensures var c := Cards(leads, term); c.newLeads + c.contacted + c.qualified == c.total
  {
    var shown := FilteredLeads(leads, term);
    StatusCountsCoverLeads(shown, []);
  }

  /** A rep's page asks for, and so holds, exactly that rep's leads; anyone else's page holds all of them. */
  lemma LoadScopesReps(leads: seq<Lead>, user: PublicUser)
    ensures user.role == REP && user.id != "" ==>
      var shown := LeadsQuery(leads, OwnerScope(Some(user)));
      (forall i :: 0 <= i < |shown| ==> shown[i].ownerId == user.id)
      && (forall i :: 0 <= i < |leads| && leads[i].ownerId == user.id ==> leads[i] in shown)
    ensures user.role != REP ==> LeadsQuery(leads, OwnerScope(Some(user))) == leads
  {
  }

  /** The Convert button is shown only for leads that are not yet qualified. */
  predicate CanConvert(l: Lead) {
    l.status != QUALIFIED
  }

  function MarkQualified(): Lead -> Lead {
    (l: Lead) => l.(status := QUALIFIED)
  }

  /**
   * After a conversion the leads with that id are qualified, and so no
   * longer offer conversion, while every other field and every other lead is
   * unchanged.
   */
  lemma ConversionOnlyQualifies(leads: seq<Lead>, id: string)
    ensures var r := ReplaceWhere(leads, LeadWithId(id), MarkQualified());
      |r| == |leads|
      && (forall i :: 0 <= i < |r| ==>
            r[i] == leads[i].(status := if leads[i].id == id then QUALIFIED else leads[i].status))
      && (forall i :: 0 <= i < |r| && r[i].id == id ==> !CanConvert(r[i]))
  {
  }

  /** A successful delete leaves no lead with that id and keeps the others in order. */
  lemma DeleteRemovesEveryMatch(leads: seq<Lead>, id: string)
    ensures var r := Filter(leads, Not(LeadWithId(id)));
      (forall i :: 0 <= i < |r| ==> r[i].id != id)
      && (forall i :: 0 <= i < |leads| && leads[i].id != id ==> leads[i] in r)
      && |r| == |leads| - |Filter(leads, LeadWithId(id))|
  {
    FilterSplitCount(leads, LeadWithId(id));
  }

  /** The delete keeps the remaining leads in the page's order, each once. */
  lemma DeleteKeepsOrder(a: seq<Lead>, b: seq<Lead>, l: Lead, id: string)
    ensures Filter(a + b, Not(LeadWithId(id))) == Filter(a, Not(LeadWithId(id))) + Filter(b, Not(LeadWithId(id)))
    ensures Filter([l], Not(LeadWithId(id))) == if l.id == id then [] else [l]
  {
    FilterAppend(a, b, Not(LeadWithId(id)));
    FilterSingleton(l, Not(LeadWithId(id)));
  }

  /**
   * The page's delete and the server's agree while ids are unique; with a
   * duplicated id the page drops every copy but the server only the first.
   */
  lemma DeleteAgreesWithServerWhenIdsUnique(leads: seq<Lead>, id: string)
    requires AtMostOne(leads, LeadWithId(id))
    ensures Filter(leads, Not(LeadWithId(id))) == RemoveFirst(leads, LeadWithId(id))
  {
    RemoveFirstIsFilterWhenUnique(leads, LeadWithId(id));
  }

  /** The add-lead dialog. */
  datatype LeadForm = LeadForm(name: string, email: string, phone: string, status: string)

  /** `editLead`, sent as the body of `PUT /leads/:id`: every editable field, never `id` or `ownerId`. */
  function EditPatch(form: LeadForm): LeadPatch {
    LeadPatch(None, Some(form.name), Some(form.email), Some(form.phone), Some(form.status), None)
  }

  /**
   * What conversion sends: `PUT /leads/:id` with status Qualified, then
   * `POST /opportunities` with the opportunity below.
   */
  datatype Conversion = Conversion(leadId: string, statusChange: LeadPatch, opportunity: OpportunityInput)

  function QualifyPatch(): LeadPatch {
    LeadPatch(None, None, None, None, Some(QUALIFIED), None)
  }

  /** The requests as the client builds them: the opportunity's owner is left empty. */
  function ConversionAsWritten(leadId: string, title: string, value: int, stage: string): (c: Conversion)
    ensures c.leadId == leadId && c.statusChange == QualifyPatch()
    ensures c.opportunity.ownerId == "" && c.opportunity.leadId == leadId
  {
    Conversion(leadId, QualifyPatch(), OpportunityInput(title, value, stage, "", leadId))
  }

  /** The requests with the opportunity owned by the signed-in user. */
  function ConversionFor(leadId: string, ownerId: string, title: string, value: int, stage: string): (c: Conversion)
    ensures c.leadId == leadId && c.statusChange == QualifyPatch()
    ensures c.opportunity.ownerId == ownerId && c.opportunity.leadId == leadId
  {
    Conversion(leadId, QualifyPatch(), OpportunityInput(title, value, stage, ownerId, leadId))
  }

  /**
   * As written, the opportunity half of every conversion fails validation on
   * `ownerId` and is answered with 400 before authentication, so no
   * opportunity is created, while the status change before it goes through.
   */
  lemma ConversionAsWrittenIsRejected(jwt: Jwt, header: Option<string>, leadId: string, title: string, value: int, stage: string)
    ensures var c := ConversionAsWritten(leadId, title, value, stage);
      "ownerId" in OpportunityErrors(c.opportunity)
      && Guard(OpportunityErrors(c.opportunity), jwt, header).Refuse?
      && Guard(OpportunityErrors(c.opportunity), jwt, header).response.status == BAD_REQUEST
    ensures LeadPatchErrors(EmailRules((_: string) => true, (e: string) => e), QualifyPatch()) == []
  {
  }

  /** With the owner filled in, a conversion with a title, a known stage and a lead passes validation. */
  lemma ConversionForIsValid(leadId: string, ownerId: string, title: string, value: int, stage: string)
    requires leadId != "" && ownerId != "" && title != "" && stage in Stages
    ensures OpportunityErrors(ConversionFor(leadId, ownerId, title, value, stage).opportunity) == []
    ensures ConversionFor(leadId, ownerId, title, value, stage).opportunity.ownerId == ownerId
  {
  }

  /** The convert dialog; a `None` value is an empty field. */
  datatype ConvertForm = ConvertForm(title: string, value: Option<int>, stage: string)

  class Leads {
    var leads: seq<Lead>
    var searchTerm: string

    constructor ()
      ensures leads == [] && searchTerm == ""
    {
      leads, searchTerm := [], "";
    }

    /** `setSearchTerm`. */
    method Search(term: string)
      modifies this
      ensures searchTerm == term && leads == old(leads)
    {
      searchTerm := term;
    }

    /** `loadLeads`: the owner filter it asks for, and the list it then holds. */
    method LoadLeads(user: Option<PublicUser>, reply: Reply<seq<Lead>>) returns (ownerId: Option<string>)
      modifies this
      ensures ownerId == OwnerScope(user)
      ensures leads == if reply.Data? then reply.value else old(leads)
      ensures searchTerm == old(searchTerm)
    {
      ownerId := OwnerScope(user);
      if reply.Data? {
        leads := reply.value;
      }
    }

    /** `handleAddLead`: no request without a name, an email and a signed-in user. */
    method AddLead(form: LeadForm, user: Option<PublicUser>, reply: Reply<Lead>) returns (request: Option<LeadInput>)
      modifies this
      ensures request.Some? <==> form.name != "" && form.email != "" && user.Some?
      ensures request.Some? ==>
        request.value == LeadInput(form.name, form.email, form.phone, form.status, user.value.id)
      ensures leads == if request.Some? && reply.Data? then old(leads) + [reply.value] else old(leads)
      ensures searchTerm == old(searchTerm)
    {
      if form.name == "" || form.email == "" {
        return None;
      }
      if user.None? {
        return None;
      }
      request := Some(LeadInput(form.name, form.email, form.phone, form.status, user.value.id));
      if reply.Data? {
        leads := leads + [reply.value];
      }
    }

    /** `handleUpdateLead`: on success every lead with the selected id becomes the server's answer. */
    method UpdateLead(selected: Option<Lead>, form: LeadForm, reply: Reply<Lead>)
      returns (request: Option<(string, LeadPatch)>)
      modifies this
      ensures request == if selected.None? then None else Some((selected.value.id, EditPatch(form)))
      ensures leads ==
        if selected.Some? && reply.Data? then ReplaceWhere(old(leads), LeadWithId(selected.value.id), Always(reply.value))
        else old(leads)
      ensures searchTerm == old(searchTerm)
    {
      if selected.None? {
        return None;
      }
      request := Some((selected.value.id, EditPatch(form)));
      if reply.Data? {
        leads := ReplaceWhere(leads, LeadWithId(selected.value.id), Always(reply.value));
      }
    }

    /**
     * `handleConvertLead`: no request without a selected lead, a signed-in
     * user, a title and a value; on success the selected lead is marked
     * Qualified.
     */
    method ConvertLead(selected: Option<Lead>, user: Option<PublicUser>, form: ConvertForm, reply: Reply<Opportunity>)
      returns (request: Option<Conversion>)
      modifies this
      ensures request.Some? <==> selected.Some? && user.Some? && form.title != "" && form.value.Some?
      ensures request.Some? ==>
        request.value == ConversionFor(selected.value.id, user.value.id, form.title, form.value.value, form.stage)
      ensures leads ==
        if request.Some? && reply.Data? then ReplaceWhere(old(leads), LeadWithId(selected.value.id), MarkQualified())
        else old(leads)
      ensures searchTerm == old(searchTerm)
    {
      if selected.None? || user.None? {
        return None;
      }
      if form.title == "" || form.value.None? {
        return None;
      }
      request := Some(ConversionFor(selected.value.id, user.value.id, form.title, form.value.value, form.stage));
      if reply.Data? {
        leads := ReplaceWhere(leads, LeadWithId(selected.value.id), MarkQualified());
      }
    }

    /** `handleDeleteLead`: on success every lead with that id leaves the list. */
    method DeleteLead(id: string, reply: Reply<()>)
      modifies this
      ensures leads == if reply.Data? then Filter(old(leads), Not(LeadWithId(id))) else old(leads)
      ensures searchTerm == old(searchTerm)
    {
      if reply.Data? {
        leads := Filter(leads, Not(LeadWithId(id)));
      }
    }
  }
}
