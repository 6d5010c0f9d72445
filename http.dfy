/**
 * Status codes and JSON bodies of the REST API's responses, and the
 * truthiness test Express handlers apply to query parameters.
 */
module Http {
  import opened Lists
  import opened Records

  const OK := 200
  const CREATED := 201
  const NO_CONTENT := 204
  const BAD_REQUEST := 400
  const UNAUTHORIZED := 401
  const FORBIDDEN := 403
  const NOT_FOUND := 404

  datatype Body =
    | Empty
    | Message(error: string)
    | FieldErrors(fields: seq<string>)
    | Session(token: string, user: PublicUser)
    | UserRecord(user: PublicUser)
    | UserRecords(users: seq<PublicUser>)
    | LeadRecord(lead: Lead)
    | LeadRecords(leads: seq<Lead>)
    | OpportunityRecord(opportunity: Opportunity)
    | OpportunityRecords(opportunities: seq<Opportunity>)
    | StatsReport(stats: DashboardStats)

  datatype Response = Response(status: nat, body: Body)

  /**
   * `if (ownerId)` on a query parameter: absent and empty parameters are
   * both falsy and switch the filter off.
   */
  predicate Given(q: Option<string>) {
    q.Some? && q.value != ""
  }
}
