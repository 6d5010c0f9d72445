/**
 * The three kinds of record the CRM stores, the shape of the dashboard
 * report, and the fixed vocabularies the request validators accept. Status,
 * stage and role are strings, as they are in the stored JSON document; the
 * validators decide which strings may enter it.
 */
module Records {

  const REP := "rep"
  const Roles: seq<string> := [REP, "manager", "admin"]

  const NEW := "New"
  const CONTACTED := "Contacted"
  const QUALIFIED := "Qualified"
  const LeadStatuses: seq<string> := [NEW, CONTACTED, QUALIFIED]

  const DISCOVERY := "Discovery"
  const PROPOSAL := "Proposal"
  const WON := "Won"
  const LOST := "Lost"
  const Stages: seq<string> := [DISCOVERY, PROPOSAL, WON, LOST]

  /** A stored user; the password is kept as given. */
  datatype User = User(id: string, name: string, email: string, password: string, role: string)

  /** A user as the API shows it: every field except the password. */
  datatype PublicUser = PublicUser(id: string, name: string, email: string, role: string)

  datatype Lead = Lead(id: string, name: string, email: string, phone: string, status: string, ownerId: string)

  datatype Opportunity = Opportunity(id: string, title: string, value: int, stage: string, ownerId: string, leadId: string)

  datatype DashboardStats = DashboardStats(
    totalLeads: nat, newLeads: nat, contactedLeads: nat, qualifiedLeads: nat,
    totalOpportunities: nat, discoveryOpportunities: nat, proposalOpportunities: nat,
    wonOpportunities: nat, lostOpportunities: nat,
    totalValue: int, wonValue: int)

  /** `const { password, ...user } = u`. */
  function Public(u: User): (p: PublicUser)
    ensures p.id == u.id && p.name == u.name && p.email == u.email && p.role == u.role
  {
    PublicUser(u.id, u.name, u.email, u.role)
  }

  /** What the API shows of a user does not depend on the stored password. */
  lemma PublicIgnoresPassword(u: User, password: string)
    ensures Public(u.(password := password)) == Public(u)
    ensures Public(u).id == u.id && Public(u).email == u.email && Public(u).role == u.role
  {
  }

  function UserWithId(id: string): User -> bool { (u: User) => u.id == id }
  function UserWithEmail(email: string): User -> bool { (u: User) => u.email == email }

  function LeadWithId(id: string): Lead -> bool { (l: Lead) => l.id == id }
  function LeadOwnedBy(ownerId: string): Lead -> bool { (l: Lead) => l.ownerId == ownerId }
  function LeadInStatus(status: string): Lead -> bool { (l: Lead) => l.status == status }

  function OpportunityWithId(id: string): Opportunity -> bool { (o: Opportunity) => o.id == id }
  function OpportunityOwnedBy(ownerId: string): Opportunity -> bool { (o: Opportunity) => o.ownerId == ownerId }
  function OpportunityInStage(stage: string): Opportunity -> bool { (o: Opportunity) => o.stage == stage }

  function ValueOf(o: Opportunity): int { o.value }
}
