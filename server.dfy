/**
 * The REST API's record store: the three collections of the JSON document
 * held in memory, and the route handlers that read and change them. Every
 * handler runs to completion before the next one starts; the file the
 * original rewrites after each change is not modelled.
 */
module Server {
  import opened Lists
  import opened Records
  import opened Http
  import opened Auth
  import opened Validation
  import opened Stats

  /** `GET /leads[?ownerId=]`: the stored leads, restricted to one owner when `ownerId` is given. */
  function LeadsQuery(leads: seq<Lead>, ownerId: Option<string>): (r: seq<Lead>)
    ensures forall i :: 0 <= i < |r| ==>
      r[i] in leads && (Given(ownerId) ==> r[i].ownerId == ownerId.value)
    ensures forall i :: 0 <= i < |leads| && (Given(ownerId) ==> leads[i].ownerId == ownerId.value) ==>
      leads[i] in r
    ensures !Given(ownerId) ==> r == leads
  {
    if Given(ownerId) then Filter(leads, LeadOwnedBy(ownerId.value)) else leads
  }

  /** `GET /opportunities[?ownerId=][&stage=]`: both filters, each applied only when given. */
  function OpportunitiesQuery(opportunities: seq<Opportunity>, ownerId: Option<string>, stage: Option<string>)
    : (r: seq<Opportunity>)
    ensures forall i :: 0 <= i < |r| ==>
      r[i] in opportunities
      && (Given(ownerId) ==> r[i].ownerId == ownerId.value)
      && (Given(stage) ==> r[i].stage == stage.value)
    ensures forall i ::
      (0 <= i < |opportunities|
       && (Given(ownerId) ==> opportunities[i].ownerId == ownerId.value)
       && (Given(stage) ==> opportunities[i].stage == stage.value))
      ==> opportunities[i] in r
    ensures !Given(ownerId) && !Given(stage) ==> r == opportunities
  {
    var byOwner := if Given(ownerId) then Filter(opportunities, OpportunityOwnedBy(ownerId.value)) else opportunities;
    if Given(stage) then Filter(byOwner, OpportunityInStage(stage.value)) else byOwner
  }

  /**
   * The query keeps the stored order and each kept lead once: it distributes
   * over concatenation, and on a single lead it keeps it exactly when the
   * owner filter admits it.
   */
  lemma LeadsQueryKeepsOrder(a: seq<Lead>, b: seq<Lead>, l: Lead, ownerId: Option<string>)
    ensures LeadsQuery(a + b, ownerId) == LeadsQuery(a, ownerId) + LeadsQuery(b, ownerId)
    ensures LeadsQuery([l], ownerId) == if !Given(ownerId) || l.ownerId == ownerId.value then [l] else []
  {
    if Given(ownerId) {
      FilterAppend(a, b, LeadOwnedBy(ownerId.value));
      FilterSingleton(l, LeadOwnedBy(ownerId.value));
    }
  }

  lemma OpportunitiesQueryKeepsOrder(a: seq<Opportunity>, b: seq<Opportunity>, x: Opportunity,
                                     ownerId: Option<string>, stage: Option<string>)
    ensures OpportunitiesQuery(a + b, ownerId, stage)
         == OpportunitiesQuery(a, ownerId, stage) + OpportunitiesQuery(b, ownerId, stage)
    ensures OpportunitiesQuery([x], ownerId, stage)
         == if (!Given(ownerId) || x.ownerId == ownerId.value) && (!Given(stage) || x.stage == stage.value)
            then [x] else []
  {
    var byOwnerA := if Given(ownerId) then Filter(a, OpportunityOwnedBy(ownerId.value)) else a;
    var byOwnerB := if Given(ownerId) then Filter(b, OpportunityOwnedBy(ownerId.value)) else b;
    if Given(ownerId) {
      FilterAppend(a, b, OpportunityOwnedBy(ownerId.value));
      FilterSingleton(x, OpportunityOwnedBy(ownerId.value));
    }
    if Given(stage) {
      FilterAppend(byOwnerA, byOwnerB, OpportunityInStage(stage.value));
      FilterSingleton(x, OpportunityInStage(stage.value));
      assert Filter([], OpportunityInStage(stage.value)) == [];
    }
  }

  /** `users.map(({ password, ...user }) => user)`. */
  function PublicUsers(users: seq<User>): (r: seq<PublicUser>)
    ensures |r| == |users|
    ensures forall i :: 0 <= i < |users| ==> r[i] == Public(users[i])
  {
    if users == [] then [] else [Public(users[0])] + PublicUsers(users[1..])
  }

  /** Listing users shows the same thing whatever passwords are stored. */
  lemma PublicUsersIgnorePasswords(users: seq<User>, passwords: seq<string>)
    requires |passwords| == |users|
    ensures PublicUsers(seq(|users|, i requires 0 <= i < |users| => users[i].(password := passwords[i])))
      == PublicUsers(users)
  {
    var changed := seq(|users|, i requires 0 <= i < |users| => users[i].(password := passwords[i]));
    assert forall i :: 0 <= i < |users| ==> Public(changed[i]) == Public(users[i]);
  }

  function NewUser(id: string, rules: EmailRules, b: UserInput): User {
    User(id, b.name, rules.normalize(b.email), b.password, b.role)
  }

  function NewLead(id: string, rules: EmailRules, b: LeadInput): Lead {
    Lead(id, b.name, rules.normalize(b.email), b.phone, b.status, b.ownerId)
  }

  function NewOpportunity(id: string, b: OpportunityInput): Opportunity {
    Opportunity(id, b.title, b.value, b.stage, b.ownerId, b.leadId)
  }

  /** `{ ...lead, ...body }`: every field the body carries overrides the stored one. */
  function MergeLead(l: Lead, p: LeadPatch): (r: Lead)
    ensures r.id == if p.id.Some? then p.id.value else l.id
    ensures r.name == if p.name.Some? then p.name.value else l.name
    ensures r.email == if p.email.Some? then p.email.value else l.email
    ensures r.phone == if p.phone.Some? then p.phone.value else l.phone
    ensures r.status == if p.status.Some? then p.status.value else l.status
    ensures r.ownerId == if p.ownerId.Some? then p.ownerId.value else l.ownerId
  {
    Lead(GetOr(p.id, l.id), GetOr(p.name, l.name), GetOr(p.email, l.email),
         GetOr(p.phone, l.phone), GetOr(p.status, l.status), GetOr(p.ownerId, l.ownerId))
  }

  /**
   * `{ ...opportunity, ...body }`, then `value = parseInt(body.value)` when
   * the body's value is truthy; on an integer value that re-parse changes
   * nothing.
   */
  function MergeOpportunity(o: Opportunity, p: OpportunityPatch): (r: Opportunity)
    ensures r.id == if p.id.Some? then p.id.value else o.id
    ensures r.title == if p.title.Some? then p.title.value else o.title
    ensures r.value == if p.value.Some? then p.value.value else o.value
    ensures r.stage == if p.stage.Some? then p.stage.value else o.stage
    ensures r.ownerId == if p.ownerId.Some? then p.ownerId.value else o.ownerId
    ensures r.leadId == if p.leadId.Some? then p.leadId.value else o.leadId
  {
    Opportunity(GetOr(p.id, o.id), GetOr(p.title, o.title), GetOr(p.value, o.value),
                GetOr(p.stage, o.stage), GetOr(p.ownerId, o.ownerId), GetOr(p.leadId, o.leadId))
  }

  const NoLeadChange := LeadPatch(None, None, None, None, None, None)
  const NoOpportunityChange := OpportunityPatch(None, None, None, None, None, None)

  /** The body that sets every field of a lead to those of `l`. */
  function LeadPatchOf(l: Lead): LeadPatch {
    LeadPatch(Some(l.id), Some(l.name), Some(l.email), Some(l.phone), Some(l.status), Some(l.ownerId))
  }

  /**
   * A shallow merge keeps what the body leaves out: an empty body changes
   * nothing, merging twice is merging once, and a body carrying every field
   * replaces the record outright.
   */
  lemma MergeLeadLaws(l: Lead, p: LeadPatch, l2: Lead)
    ensures MergeLead(l, NoLeadChange) == l
    ensures MergeLead(MergeLead(l, p), p) == MergeLead(l, p)
    ensures MergeLead(l, LeadPatchOf(l2)) == l2
    ensures p.status.None? ==> MergeLead(l, p).status == l.status
    ensures p.ownerId.None? ==> MergeLead(l, p).ownerId == l.ownerId
  {
  }

  lemma MergeOpportunityLaws(o: Opportunity, p: OpportunityPatch)
    ensures MergeOpportunity(o, NoOpportunityChange) == o
    ensures MergeOpportunity(MergeOpportunity(o, p), p) == MergeOpportunity(o, p)
    ensures p.value.None? ==> MergeOpportunity(o, p).value == o.value
    ensures p.value.Some? ==> MergeOpportunity(o, p).value == p.value.value
  {
  }

  ghost predicate UniqueEmails(users: seq<User>) {
    forall i, j :: 0 <= i < j < |users| ==> users[i].email != users[j].email
  }

  ghost predicate HasUser(users: seq<User>, id: string) {
    exists i :: 0 <= i < |users| && users[i].id == id
  }

  ghost predicate HasLead(leads: seq<Lead>, id: string) {
    exists i :: 0 <= i < |leads| && leads[i].id == id
  }

  class Database {
    var users: seq<User>
    var leads: seq<Lead>
    var opportunities: seq<Opportunity>
    const rules: EmailRules
    const jwt: Jwt

    /**
     * What every handler keeps true: user emails are unique and every stored
     * role, status and stage is one the validators accept.
     */
    ghost predicate WellFormed()
      reads this
    {
      && UniqueEmails(users)
      && (forall i :: 0 <= i < |users| ==> users[i].role in Roles)
      && KnownStatuses(leads)
      && KnownStages(opportunities)
    }

    /** `readDatabase`'s fallback when the document cannot be read: three empty collections. */
    constructor (rules: EmailRules, jwt: Jwt)
      ensures this.rules == rules && this.jwt == jwt
      ensures users == [] && leads == [] && opportunities == []
      ensures WellFormed()
    {
      this.rules := rules;
      this.jwt := jwt;
      users, leads, opportunities := [], [], [];
    }

    /** `POST /auth/login`. */
    function Login(b: LoginInput): (r: Response)
      reads this
      ensures r.status == OK || r.status == BAD_REQUEST || r.status == UNAUTHORIZED
      ensures LoginErrors(rules, b) != [] ==> r == Response(BAD_REQUEST, FieldErrors(LoginErrors(rules, b)))
      ensures r.status == OK <==>
        LoginErrors(rules, b) == []
        && var i := FindIndex(users, UserWithEmail(rules.normalize(b.email)));
        i.Some? && users[i.value].password == b.password
      ensures r.status == OK ==>
        var u := users[FindIndex(users, UserWithEmail(rules.normalize(b.email))).value];
        r.body == Session(jwt.sign(Claims(u.id, u.email, u.role)), Public(u))
      ensures r.status == UNAUTHORIZED ==> r.body == Message("Invalid credentials")
    {
      var errors := LoginErrors(rules, b);
      if errors != [] then Response(BAD_REQUEST, FieldErrors(errors))
      else
        match FindIndex(users, UserWithEmail(rules.normalize(b.email)))
        case None => Response(UNAUTHORIZED, Message("Invalid credentials"))
        case Some(i) =>
          var u := users[i];
          if b.password != u.password then Response(UNAUTHORIZED, Message("Invalid credentials"))
          else Response(OK, Session(jwt.sign(Claims(u.id, u.email, u.role)), Public(u)))
    }

    /** `GET /users`. */
    function ListUsers(header: Option<string>): (r: Response)
      reads this
      ensures Authenticate(jwt, header).Refuse? ==> r == Authenticate(jwt, header).response
      ensures Authenticate(jwt, header).Admit? ==> r == Response(OK, UserRecords(PublicUsers(users)))
    {
      match Authenticate(jwt, header)
      case Refuse(resp) => resp
      case Admit(_) => Response(OK, UserRecords(PublicUsers(users)))
    }

    /** `GET /users/:id`: the first user with that id, without its password. */
    function GetUser(header: Option<string>, id: string): (r: Response)
      reads this
      ensures Authenticate(jwt, header).Refuse? ==> r == Authenticate(jwt, header).response
      ensures Authenticate(jwt, header).Admit? ==>
        (r.status == NOT_FOUND <==> !HasUser(users, id))
        && (r.status == NOT_FOUND ==> r.body == Message("User not found"))
        && (r.status != NOT_FOUND ==>
              r.status == OK && r.body.UserRecord? && r.body.user.id == id
              && exists i :: 0 <= i < |users| && users[i].id == id && r.body.user == Public(users[i])
                   && forall j :: 0 <= j < i ==> users[j].id != id)
    {
      match Authenticate(jwt, header)
      case Refuse(resp) => resp
      case Admit(_) =>
        match FindIndex(users, UserWithId(id))
        case None => Response(NOT_FOUND, Message("User not found"))
        case Some(i) => Response(OK, UserRecord(Public(users[i])))
    }

    /** `POST /users`: a new user with a fresh id, unless the (normalised) email is taken. */
    method CreateUser(header: Option<string>, b: UserInput, newId: string) returns (r: Response)
      modifies this
      ensures leads == old(leads) && opportunities == old(opportunities)
      ensures match Guard(UserErrors(rules, b), jwt, header)
        case Refuse(resp) => r == resp && users == old(users)
        case Admit(_) =>
          if exists i :: 0 <= i < |old(users)| && old(users)[i].email == rules.normalize(b.email) then
            r == Response(BAD_REQUEST, Message("User with this email already exists")) && users == old(users)
          else
            users == old(users) + [NewUser(newId, rules, b)]
            && r == Response(CREATED, UserRecord(Public(NewUser(newId, rules, b))))
      ensures old(WellFormed()) ==> WellFormed()
    {
      match Guard(UserErrors(rules, b), jwt, header)
      case Refuse(resp) =>
        r := resp;
      case Admit(_) =>
        var email := rules.normalize(b.email);
        if FindIndex(users, UserWithEmail(email)).Some? {
          r := Response(BAD_REQUEST, Message("User with this email already exists"));
        } else {
          var u := NewUser(newId, rules, b);
          users := users + [u];
          r := Response(CREATED, UserRecord(Public(u)));
        }
    }

    /** `GET /leads[?ownerId=]`. */
    function ListLeads(header: Option<string>, ownerId: Option<string>): (r: Response)
      reads this
      ensures Authenticate(jwt, header).Refuse? ==> r == Authenticate(jwt, header).response
      ensures Authenticate(jwt, header).Admit? ==> r == Response(OK, LeadRecords(LeadsQuery(leads, ownerId)))
    {
      match Authenticate(jwt, header)
      case Refuse(resp) => resp
      case Admit(_) => Response(OK, LeadRecords(LeadsQuery(leads, ownerId)))
    }

    /** `GET /leads/:id`: the first lead with that id. */
    function GetLead(header: Option<string>, id: string): (r: Response)
      reads this
      ensures Authenticate(jwt, header).Refuse? ==> r == Authenticate(jwt, header).response
      ensures Authenticate(jwt, header).Admit? ==>
        (r.status == NOT_FOUND <==> !HasLead(leads, id))
        && (r.status == NOT_FOUND ==> r.body == Message("Lead not found"))
        && (r.status != NOT_FOUND ==>
              r.status == OK && r.body.LeadRecord?
              && exists i :: 0 <= i < |leads| && leads[i].id == id && r.body.lead == leads[i]
                   && forall j :: 0 <= j < i ==> leads[j].id != id)
    {
      match Authenticate(jwt, header)
      case Refuse(resp) => resp
      case Admit(_) =>
        match FindIndex(leads, LeadWithId(id))
        case None => Response(NOT_FOUND, Message("Lead not found"))
        case Some(i) => Response(OK, LeadRecord(leads[i]))
    }

    /** `POST /leads`: appends a lead with a fresh id, provided its owner exists. */
    method CreateLead(header: Option<string>, b: LeadInput, newId: string) returns (r: Response)
      modifies this
      ensures users == old(users) && opportunities == old(opportunities)
      ensures match Guard(LeadErrors(rules, b), jwt, header)
        case Refuse(resp) => r == resp && leads == old(leads)
        case Admit(_) =>
          if !HasUser(users, b.ownerId) then
            r == Response(BAD_REQUEST, Message("Owner not found")) && leads == old(leads)
          else
            leads == old(leads) + [NewLead(newId, rules, b)]
            && r == Response(CREATED, LeadRecord(NewLead(newId, rules, b)))
      ensures old(WellFormed()) ==> WellFormed()
    {
      match Guard(LeadErrors(rules, b), jwt, header)
      case Refuse(resp) =>
        r := resp;
      case Admit(_) =>
        if FindIndex(users, UserWithId(b.ownerId)).None? {
          r := Response(BAD_REQUEST, Message("Owner not found"));
        } else {
          var l := NewLead(newId, rules, b);
          leads := leads + [l];
          r := Response(CREATED, LeadRecord(l));
        }
    }

    /** `PUT /leads/:id`: shallow-merges the body over the first lead with that id. */
    method UpdateLead(header: Option<string>, id: string, patch: LeadPatch) returns (r: Response)
      modifies this
      ensures users == old(users) && opportunities == old(opportunities)
      ensures match Guard(LeadPatchErrors(rules, patch), jwt, header)
        case Refuse(resp) => r == resp && leads == old(leads)
        case Admit(_) =>
          match FindIndex(old(leads), LeadWithId(id))
          case None => r == Response(NOT_FOUND, Message("Lead not found")) && leads == old(leads)
          case Some(i) =>
            var updated := MergeLead(old(leads)[i], NormalizePatch(rules, patch));
            leads == old(leads)[i := updated] && r == Response(OK, LeadRecord(updated))
      ensures old(WellFormed()) ==> WellFormed()
    {
      match Guard(LeadPatchErrors(rules, patch), jwt, header)
      case Refuse(resp) =>
        r := resp;
      case Admit(_) =>
        match FindIndex(leads, LeadWithId(id))
        case None =>
          r := Response(NOT_FOUND, Message("Lead not found"));
        case Some(i) =>
          var updated := MergeLead(leads[i], NormalizePatch(rules, patch));
          leads := leads[i := updated];
          r := Response(OK, LeadRecord(updated));
    }

    /** `DELETE /leads/:id`: splices out the first lead with that id; opportunities are left as they are. */
    method DeleteLead(header: Option<string>, id: string) returns (r: Response)
      modifies this
      ensures users == old(users) && opportunities == old(opportunities)
      ensures match Authenticate(jwt, header)
        case Refuse(resp) => r == resp && leads == old(leads)
        case Admit(_) =>
          if !HasLead(old(leads), id) then
            r == Response(NOT_FOUND, Message("Lead not found")) && leads == old(leads)
          else
            r == Response(NO_CONTENT, Empty) && leads == RemoveFirst(old(leads), LeadWithId(id))
      ensures old(WellFormed()) ==> WellFormed()
    {
      match Authenticate(jwt, header)
      case Refuse(resp) =>
        r := resp;
      case Admit(_) =>
        match FindIndex(leads, LeadWithId(id))
        case None =>
          r := Response(NOT_FOUND, Message("Lead not found"));
        case Some(i) =>
          leads := leads[..i] + leads[i + 1..];
          r := Response(NO_CONTENT, Empty);
    }

    /** `GET /opportunities[?ownerId=][&stage=]`. */
    function ListOpportunities(header: Option<string>, ownerId: Option<string>, stage: Option<string>): (r: Response)
      reads this
      ensures Authenticate(jwt, header).Refuse? ==> r == Authenticate(jwt, header).response
      ensures Authenticate(jwt, header).Admit? ==>
        r == Response(OK, OpportunityRecords(OpportunitiesQuery(opportunities, ownerId, stage)))
    {
      match Authenticate(jwt, header)
      case Refuse(resp) => resp
      case Admit(_) => Response(OK, OpportunityRecords(OpportunitiesQuery(opportunities, ownerId, stage)))
    }

    /** `GET /opportunities/:id`: the first opportunity with that id. */
    function GetOpportunity(header: Option<string>, id: string): (r: Response)
      reads this
      ensures Authenticate(jwt, header).Refuse? ==> r == Authenticate(jwt, header).response
      ensures Authenticate(jwt, header).Admit? ==>
        (r.status == NOT_FOUND <==> forall i :: 0 <= i < |opportunities| ==> opportunities[i].id != id)
        && (r.status == NOT_FOUND ==> r.body == Message("Opportunity not found"))
        && (r.status != NOT_FOUND ==>
              r.status == OK && r.body.OpportunityRecord?
              && exists i :: 0 <= i < |opportunities| && opportunities[i].id == id
                   && r.body.opportunity == opportunities[i]
                   && forall j :: 0 <= j < i ==> opportunities[j].id != id)
    {
      match Authenticate(jwt, header)
      case Refuse(resp) => resp
      case Admit(_) =>
        match FindIndex(opportunities, OpportunityWithId(id))
        case None => Response(NOT_FOUND, Message("Opportunity not found"))
        case Some(i) => Response(OK, OpportunityRecord(opportunities[i]))
    }

    /** `POST /opportunities`: appends an opportunity, provided its owner and its lead exist. */
    method CreateOpportunity(header: Option<string>, b: OpportunityInput, newId: string) returns (r: Response)
      modifies this
      ensures users == old(users) && leads == old(leads)
      ensures match Guard(OpportunityErrors(b), jwt, header)
        case Refuse(resp) => r == resp && opportunities == old(opportunities)
        case Admit(_) =>
          if !HasUser(users, b.ownerId) then
            r == Response(BAD_REQUEST, Message("Owner not found")) && opportunities == old(opportunities)
          else if !HasLead(leads, b.leadId) then
            r == Response(BAD_REQUEST, Message("Lead not found")) && opportunities == old(opportunities)
          else
            opportunities == old(opportunities) + [NewOpportunity(newId, b)]
            && r == Response(CREATED, OpportunityRecord(NewOpportunity(newId, b)))
      ensures old(WellFormed()) ==> WellFormed()
    {
      match Guard(OpportunityErrors(b), jwt, header)
      case Refuse(resp) =>
        r := resp;
      case Admit(_) =>
        if FindIndex(users, UserWithId(b.ownerId)).None? {
          r := Response(BAD_REQUEST, Message("Owner not found"));
        } else if FindIndex(leads, LeadWithId(b.leadId)).None? {
          r := Response(BAD_REQUEST, Message("Lead not found"));
        } else {
          var o := NewOpportunity(newId, b);
          opportunities := opportunities + [o];
          r := Response(CREATED, OpportunityRecord(o));
        }
    }

    /** `PUT /opportunities/:id`: shallow-merges the body over the first opportunity with that id. */
    method UpdateOpportunity(header: Option<string>, id: string, patch: OpportunityPatch) returns (r: Response)
      modifies this
      ensures users == old(users) && leads == old(leads)
      ensures match Guard(OpportunityPatchErrors(patch), jwt, header)
        case Refuse(resp) => r == resp && opportunities == old(opportunities)
        case Admit(_) =>
          match FindIndex(old(opportunities), OpportunityWithId(id))
          case None => r == Response(NOT_FOUND, Message("Opportunity not found")) && opportunities == old(opportunities)
          case Some(i) =>
            var updated := MergeOpportunity(old(opportunities)[i], patch);
            opportunities == old(opportunities)[i := updated] && r == Response(OK, OpportunityRecord(updated))
      ensures old(WellFormed()) ==> WellFormed()
    {
      match Guard(OpportunityPatchErrors(patch), jwt, header)
      case Refuse(resp) =>
        r := resp;
      case Admit(_) =>
        match FindIndex(opportunities, OpportunityWithId(id))
        case None =>
          r := Response(NOT_FOUND, Message("Opportunity not found"));
        case Some(i) =>
          var updated := MergeOpportunity(opportunities[i], patch);
          opportunities := opportunities[i := updated];
          r := Response(OK, OpportunityRecord(updated));
    }

    /** `DELETE /opportunities/:id`: splices out the first opportunity with that id. */
    method DeleteOpportunity(header: Option<string>, id: string) returns (r: Response)
      modifies this
      ensures users == old(users) && leads == old(leads)
      ensures match Authenticate(jwt, header)
        case Refuse(resp) => r == resp && opportunities == old(opportunities)
        case Admit(_) =>
          if forall i :: 0 <= i < |old(opportunities)| ==> old(opportunities)[i].id != id then
            r == Response(NOT_FOUND, Message("Opportunity not found")) && opportunities == old(opportunities)
          else
            r == Response(NO_CONTENT, Empty)
            && opportunities == RemoveFirst(old(opportunities), OpportunityWithId(id))
      ensures old(WellFormed()) ==> WellFormed()
    {
      match Authenticate(jwt, header)
      case Refuse(resp) =>
        r := resp;
      case Admit(_) =>
        match FindIndex(opportunities, OpportunityWithId(id))
        case None =>
          r := Response(NOT_FOUND, Message("Opportunity not found"));
        case Some(i) =>
          opportunities := opportunities[..i] + opportunities[i + 1..];
          r := Response(NO_CONTENT, Empty);
    }

    /** `GET /dashboard/stats[?ownerId=]`. */
    function DashboardStats(header: Option<string>, ownerId: Option<string>): (r: Response)
      reads this
      ensures Authenticate(jwt, header).Refuse? ==> r == Authenticate(jwt, header).response
      ensures Authenticate(jwt, header).Admit? ==>
        r == Response(OK, StatsReport(Scoped(leads, opportunities, ownerId)))
    {
      match Authenticate(jwt, header)
      case Refuse(resp) => resp
      case Admit(_) => Response(OK, StatsReport(Scoped(leads, opportunities, ownerId)))
    }
  }

  /**
   * With unique emails, login succeeds for a stored user exactly when the
   * password given equals the stored one, and answers with that user's public
   * fields.
   */
  lemma LoginChecksStoredPassword(db: Database, b: LoginInput, k: nat)
    requires UniqueEmails(db.users)
    requires LoginErrors(db.rules, b) == []
    requires k < |db.users| && db.users[k].email == db.rules.normalize(b.email)
    ensures db.Login(b).status == OK <==> b.password == db.users[k].password
    ensures db.Login(b).status == OK ==> db.Login(b).body.user == Public(db.users[k])
    ensures db.Login(b).status != OK ==> db.Login(b) == Response(UNAUTHORIZED, Message("Invalid credentials"))
  {
    var i := FindIndex(db.users, UserWithEmail(db.rules.normalize(b.email)));
    assert i.Some?;
    assert i.value == k;
  }

  /** An email no user has is refused with 401, whatever the password. */
  lemma LoginUnknownEmail(db: Database, b: LoginInput)
    requires LoginErrors(db.rules, b) == []
    requires forall i :: 0 <= i < |db.users| ==> db.users[i].email != db.rules.normalize(b.email)
    ensures db.Login(b) == Response(UNAUTHORIZED, Message("Invalid credentials"))
  {
  }
}
