/**
 * Request bodies of the mutating routes and the express-validator chains
 * declared on them. A chain's result is the list of fields that failed, in
 * declaration order; an empty list lets the request through. `isEmail` and
 * `normalizeEmail` belong to the validator library and are supplied from
 * outside. Values are integers, so `isNumeric` accepts every value and is not
 * written out.
 */
module Validation {
  import opened Lists
  import opened Records

  datatype EmailRules = EmailRules(isEmail: string -> bool, normalize: string -> string)

  datatype LoginInput = LoginInput(email: string, password: string)
  datatype UserInput = UserInput(name: string, email: string, password: string, role: string)
  datatype LeadInput = LeadInput(name: string, email: string, phone: string, status: string, ownerId: string)
  datatype OpportunityInput = OpportunityInput(title: string, value: int, stage: string, ownerId: string, leadId: string)

  /**
   * The body of a PUT on a lead: every field optional. A body may also carry
   * `id`, which no validator looks at and which the shallow merge copies.
   */
  datatype LeadPatch = LeadPatch(
    id: Option<string>, name: Option<string>, email: Option<string>,
    phone: Option<string>, status: Option<string>, ownerId: Option<string>)

  datatype OpportunityPatch = OpportunityPatch(
    id: Option<string>, title: Option<string>, value: Option<int>,
    stage: Option<string>, ownerId: Option<string>, leadId: Option<string>)

  function Check(ok: bool, field: string): seq<string> {
    if ok then [] else [field]
  }

  /** `.optional()`: an absent field passes, a present one must satisfy `ok`. */
  predicate Optional(v: Option<string>, ok: string -> bool) {
    v.None? || ok(v.value)
  }

  function NonEmpty(s: string): bool { |s| >= 1 }

  function OneOf(allowed: seq<string>): string -> bool { s => s in allowed }

  function LoginErrors(rules: EmailRules, b: LoginInput): (errors: seq<string>)
    ensures errors == [] <==> rules.isEmail(b.email) && b.password != ""
    ensures forall f :: f in errors ==> f in ["email", "password"]
  {
    Check(rules.isEmail(b.email), "email") + Check(NonEmpty(b.password), "password")
  }

  function UserErrors(rules: EmailRules, b: UserInput): (errors: seq<string>)
    ensures errors == [] <==>
      b.name != "" && rules.isEmail(b.email) && |b.password| >= 6 && b.role in Roles
    ensures "password" in errors <==> |b.password| < 6
  {
    Check(NonEmpty(b.name), "name") + Check(rules.isEmail(b.email), "email")
    + Check(|b.password| >= 6, "password") + Check(b.role in Roles, "role")
  }

  function LeadErrors(rules: EmailRules, b: LeadInput): (errors: seq<string>)
    ensures errors == [] <==>
      b.name != "" && rules.isEmail(b.email) && b.phone != ""
      && b.status in LeadStatuses && b.ownerId != ""
    ensures "ownerId" in errors <==> b.ownerId == ""
  {
    Check(NonEmpty(b.name), "name") + Check(rules.isEmail(b.email), "email")
    + Check(NonEmpty(b.phone), "phone") + Check(b.status in LeadStatuses, "status")
    + Check(NonEmpty(b.ownerId), "ownerId")
  }

  function LeadPatchErrors(rules: EmailRules, b: LeadPatch): (errors: seq<string>)
    ensures errors == [] <==>
      Optional(b.name, NonEmpty) && Optional(b.email, rules.isEmail) && Optional(b.phone, NonEmpty)
      && Optional(b.status, OneOf(LeadStatuses)) && Optional(b.ownerId, NonEmpty)
    ensures errors == [] && b.status.Some? ==> b.status.value in LeadStatuses
  {
    Check(Optional(b.name, NonEmpty), "name") + Check(Optional(b.email, rules.isEmail), "email")
    + Check(Optional(b.phone, NonEmpty), "phone") + Check(Optional(b.status, OneOf(LeadStatuses)), "status")
    + Check(Optional(b.ownerId, NonEmpty), "ownerId")
  }

  function OpportunityErrors(b: OpportunityInput): (errors: seq<string>)
    ensures errors == [] <==>
      b.title != "" && b.stage in Stages && b.ownerId != "" && b.leadId != ""
    ensures "ownerId" in errors <==> b.ownerId == ""
  {
    Check(NonEmpty(b.title), "title") + Check(b.stage in Stages, "stage")
    + Check(NonEmpty(b.ownerId), "ownerId") + Check(NonEmpty(b.leadId), "leadId")
  }

  function OpportunityPatchErrors(b: OpportunityPatch): (errors: seq<string>)
    ensures errors == [] <==>
      Optional(b.title, NonEmpty) && Optional(b.stage, OneOf(Stages))
      && Optional(b.ownerId, NonEmpty) && Optional(b.leadId, NonEmpty)
    ensures errors == [] && b.stage.Some? ==> b.stage.value in Stages
  {
    Check(Optional(b.title, NonEmpty), "title") + Check(Optional(b.stage, OneOf(Stages)), "stage")
    + Check(Optional(b.ownerId, NonEmpty), "ownerId") + Check(Optional(b.leadId, NonEmpty), "leadId")
  }

  /** `.normalizeEmail()` on an optional field: applied only when the field is present. */
  function NormalizePatch(rules: EmailRules, b: LeadPatch): (r: LeadPatch)
    ensures r.email.Some? <==> b.email.Some?
    ensures r.email.Some? ==> r.email.value == rules.normalize(b.email.value)
    ensures r.(email := b.email) == b
  {
    b.(email := if b.email.Some? then Some(rules.normalize(b.email.value)) else None)
  }
}
