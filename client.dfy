/**
 * What the two list pages share: the decoded answer of an API call, and the
 * owner scoping applied when a page loads its records.
 */
module Client {
  import opened Lists
  import opened Records
  import opened Http

  /** `ApiResponse<T>`: `{ data }` on success, `{ error }` otherwise. */
  datatype Reply<T> = Data(value: T) | Failed(error: string)

  /** `user?.role === 'rep' ? user.id : undefined`: reps see only their own records. */
  function OwnerScope(user: Option<PublicUser>): (ownerId: Option<string>)
    ensures ownerId.Some? <==> user.Some? && user.value.role == REP
    ensures ownerId.Some? ==> ownerId.value == user.value.id
  {
    if user.Some? && user.value.role == REP then Some(user.value.id) else None
  }

  /** A status the browser counts as success (`response.ok`). */
  predicate Ok(status: nat) {
    200 <= status < 300
  }

  /**
   * `request` as written: a failing status becomes an error (after a 401 the
   * client also signs out), and a successful one has its body parsed as
   * JSON, which fails on an empty body.
   */
  function ReplyAsWritten(r: Response): (reply: Reply<Body>)
    ensures reply.Data? <==> Ok(r.status) && !r.body.Empty?
    ensures reply.Data? ==> reply.value == r.body
    ensures r.status == UNAUTHORIZED ==> reply == Failed("Unauthorized")
  {
    if !Ok(r.status) then
      if r.status == UNAUTHORIZED then Failed("Unauthorized") else Failed("HTTP error!")
    else if r.body.Empty? then Failed("Unexpected end of JSON input")
    else Data(r.body)
  }

  /** A successful DELETE, answered with 204 and no body, reaches the page as a failure. */
  lemma NoContentIsReportedAsError(r: Response)
    requires r.status == NO_CONTENT && r.body == Empty
    ensures ReplyAsWritten(r).Failed?
  {
  }

  /** `request` as evidently intended: a successful status with no body is a success carrying nothing. */
  function ReplyOf(r: Response): (reply: Reply<Body>)
    ensures reply.Data? <==> Ok(r.status)
    ensures reply.Data? ==> reply.value == r.body
  {
    if Ok(r.status) && r.body.Empty? then Data(Empty) else ReplyAsWritten(r)
  }

  /**
   * The corrected wrapper reports a 204 as success and otherwise answers
   * exactly as the written one does.
   */
  lemma NoContentIsSuccess(r: Response)
    ensures r.status == NO_CONTENT && r.body == Empty ==> ReplyOf(r) == Data(Empty)
    ensures !(Ok(r.status) && r.body.Empty?) ==> ReplyOf(r) == ReplyAsWritten(r)
  {
  }
}
