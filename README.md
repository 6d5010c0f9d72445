# CRM pipeline: a verified model of the API server and the two list pages

This project models the core of a small CRM. It has three parts.

- **The REST API server (`backend/server.js`).** It keeps three collections in one JSON document: users, leads and opportunities. It guards its routes with bearer tokens. Its handlers log in, list, get, create, update and delete records, and it computes a dashboard report over the records.
- **The Leads page (`src/pages/Leads.tsx`).** It searches the leads, shows stat cards and converts leads to opportunities.
- **The Opportunities page (`src/pages/Opportunities.tsx`).** It searches the opportunities and shows the pipeline value, the won value, deal counts and the win rate.

Each page keeps a local list and changes it after every API answer.

Modules:

- `Lists`: the sequence operations the JavaScript uses, and their laws. These are `filter`, `findIndex`, a `splice` of one element, `map` with a replace-where, and `reduce` for sums.
- `Records`: users, leads, opportunities and the dashboard report, plus the allowed roles, statuses and stages.
- `Http`: status codes, response bodies, and the truthiness of query parameters.
- `Auth`:
  - the `Authorization: Bearer <token>` parsing;
  - `authenticateToken`, with 401 when there is no token and 403 when the token does not verify;
  - validation that runs before authentication on POST and PUT routes.
- `Validation`: the express-validator chains of every POST and PUT route, one error field per failed check.
- `Stats`: the dashboard fold, with optional owner scoping.
- `Server`: the query functions, the shallow merges, and `class Database`.
  - `Database` holds the three collections as sequence fields.
  - Read-only routes are functions on it; mutating routes are methods that append, replace at the found index, or splice out the first match.
  - Every mutating method keeps `WellFormed`: user emails are unique, and every stored role, status and stage is one the validators accept.
- `Search`: ASCII `toLowerCase` and `String.prototype.includes`.
- `Client`: the decoded API answer, and the rule that reps see only their own records.
- `LeadsPage` and `OpportunitiesPage`: the pages' derived values as functions, and each page's list state as a class. Each handler is a method that returns the request it would send and takes the server's answer as a parameter.

Outside influences are parameters of the model:

- **Email handling:** `EmailRules` stands for `isEmail` and `normalizeEmail`.
- **Tokens:** `Jwt` stands for token signing and verification.
- **New ids:** the fresh id from `uuidv4` is passed to each create method.
- **API answers:** each page handler takes the server's reply as a parameter.

## Model

| member | source | states |
|---|---|---|
| Lists.Filter | backend/server.js:169-172 | every kept element is an element of the input that matches, every matching element of the input is kept, and the result is no longer than the input |
| Lists.FilterAppend | src/pages/Leads.tsx:94 | filtering distributes over concatenation, so an appended record is counted exactly when it matches |
| Lists.FilterSingleton | src/pages/Leads.tsx:225 | a single element is kept exactly when it matches; with FilterAppend this fixes the result as the matching elements in their input order, each as often as in the input |
| Lists.FilterCommutes | backend/server.js:381-395 | restricting to an owner and to a status or stage can be done in either order |
| Lists.FilterSplitCount | src/pages/Leads.tsx:225 | the matching and non-matching elements together account for the whole list |
| Lists.SumSplit | backend/server.js:396-397 | the sum over the matching elements plus the sum over the rest is the total sum |
| Lists.Sum | backend/server.js:396 | the sum of values that are all non-negative is non-negative |
| Lists.FindIndex | backend/server.js:229-233 | the result is the first index whose element matches, and `None` means nothing matches |
| Lists.RemoveFirst | backend/server.js:248-254 | with no match the list is unchanged; otherwise it is one shorter, with the part before the first match kept and the part after it moved up by one |
| Lists.RemoveFirstTakesOneMatch | backend/server.js:248-254 | splicing out the first match shortens the list by one, removes one match, and leaves the non-matching elements in order |
| Lists.RemoveFirstIsFilterWhenUnique | backend/server.js:357-363 | with at most one match, splicing out the first match equals removing every match |
| Lists.RemoveFirstLeavesDuplicate | backend/server.js:254 | with two records sharing an id, the server's delete leaves the second one, while removing every match leaves neither |
| Lists.ReplaceWhere | src/pages/Leads.tsx:136-138 | the length is unchanged; each element is replaced exactly when it matches, and the others stay |
| Lists.ReplaceWhereIsUpdateWhenUnique | backend/server.js:234-236 | with at most one match, replacing every match equals the server's indexed assignment at the found index |
| Records.PublicIgnoresPassword | backend/server.js:117 | the public view of a user does not depend on the password |
| Records.Public | backend/server.js:117 | the public view carries the user's id, name, email and role |
| Auth.UpToSpace | backend/server.js:48 | the result is the prefix before the first space; it contains no space and is followed by a space or the end |
| Auth.BearerToken | backend/server.js:47-48 | a token is present only when the header is a first field, a space, that non-empty token and then nothing or a further space; a header without a space yields none |
| Auth.BearerTokenRoundTrip | backend/server.js:47-48 | a header built as `scheme + " " + token`, followed by nothing or by further space-separated fields, yields exactly that token, or none when the token is empty |
| Auth.Authenticate | backend/server.js:46-61 | 401 "Access token required" without a token, 403 "Invalid or expired token" when verification fails, and admission with the verified claims otherwise |
| Auth.Guard | backend/server.js:64-70 | a body with validation errors gets 400 with those errors before the token is looked at; otherwise the route is authenticated |
| Auth.NoHeaderIsUnauthorized | backend/server.js:131-136 | a request without a bearer token is refused: 401 when the body is valid, 400 when it is not |
| Validation.LoginErrors | backend/server.js:75-78 | no errors exactly when the email is valid and the password is non-empty |
| Validation.UserErrors | backend/server.js:131-135 | no errors exactly when name, email, a password of at least 6 characters and a known role are given |
| Validation.LeadErrors | backend/server.js:186-191 | no errors exactly when name, email, phone, a known status and an owner are given; `ownerId` is flagged exactly when it is empty |
| Validation.LeadPatchErrors | backend/server.js:220-225 | no errors exactly when every field present passes its check; an accepted status is a known one |
| Validation.OpportunityErrors | backend/server.js:288-293 | no errors exactly when title, a known stage, an owner and a lead are given; `ownerId` is flagged exactly when it is empty |
| Validation.OpportunityPatchErrors | backend/server.js:325-330 | no errors exactly when every field present passes its check; an accepted stage is a known one |
| Validation.NormalizePatch | backend/server.js:222 | the email is present exactly when it was, and is then the normalised one; every other field is unchanged |
| Stats.StatusCountsCoverLeads | backend/server.js:387-390 | when every status is known, the New, Contacted and Qualified counts add up to the total |
| Stats.StageCountsCoverOpportunities | backend/server.js:391-395 | when every stage is known, the four stage counts add up to the total |
| Stats.WonValueIsPartOfTotal | backend/server.js:396-397 | the won value plus the value of the deals that are not won is the total value |
| Stats.TallyAfterNewLead | backend/server.js:386-390 | one more lead raises the total and exactly the counter of its status by one |
| Stats.TallyAfterNewOpportunity | backend/server.js:391-397 | one more opportunity raises the total count, its stage's count and the total value; the won value moves only for a won deal |
| Stats.SumOfAppendOne | backend/server.js:396 | appending a deal adds its value to the sum |
| Stats.ScopedCountsOwnersRecords | backend/server.js:381-384 | an owner's report counts that owner's New leads and Won deals, and sums the value of those Won deals |
| Stats.Tally | backend/server.js:386-397 | the totals are the numbers of leads and opportunities; every status and stage count is at most its total; with non-negative values the won value lies between 0 and the total value |
| Stats.Scoped | backend/server.js:381-384 | without an owner the report is over all records; with one, the totals count that owner's leads and opportunities; never more than all records |
| Server.LeadsQuery | backend/server.js:165-175 | with an owner given, every returned lead is a stored lead of that owner and every stored lead of that owner is returned; without one, all leads as stored |
| Server.OpportunitiesQuery | backend/server.js:264-277 | exactly the stored opportunities matching each filter that is given; all of them when neither is given |
| Server.LeadsQueryKeepsOrder | backend/server.js:169-172 | the query distributes over concatenation and keeps a single lead exactly when the owner filter admits it, so the result is the admitted leads in stored order, each as often as stored |
| Server.OpportunitiesQueryKeepsOrder | backend/server.js:268-274 | the same for opportunities under both filters |
| Server.PublicUsers | backend/server.js:117 | one public record per stored user, in order |
| Server.PublicUsersIgnorePasswords | backend/server.js:115-119 | the user list reads the same whatever passwords are stored |
| Server.MergeLead | backend/server.js:235 | each of the six fields is the body's value when the body carries it, and the stored value otherwise |
| Server.MergeOpportunity | backend/server.js:340-343 | each of the six fields is the body's value when the body carries it, and the stored value otherwise |
| Server.MergeLeadLaws | backend/server.js:235 | an empty body changes nothing; merging twice equals merging once; a full body replaces the lead |
| Server.MergeOpportunityLaws | backend/server.js:340-343 | an empty body changes nothing; merging twice equals merging once; a value is replaced exactly when the body carries one |
| Server.Database.constructor | backend/server.js:25-33 | the fallback document: three empty collections, well formed |
| Server.Database.Login | backend/server.js:75-112 | 400 on invalid input; 200 exactly when the first user with the normalised email has the given password, answering with a signed token and the user without password; 401 "Invalid credentials" otherwise |
| Server.Database.ListUsers | backend/server.js:115-119 | refused by the token gate, or 200 with every user minus the password |
| Server.Database.GetUser | backend/server.js:121-129 | 404 "User not found" exactly when no user has the id; otherwise 200 with the first stored user of that id, minus the password |
| Server.Database.CreateUser | backend/server.js:131-162 | guard refusal, or 400 on a taken normalised email, leaves users unchanged; otherwise exactly one user is appended and returned as 201 without password; leads and opportunities are untouched; well-formedness is kept |
| Server.Database.ListLeads | backend/server.js:165-175 | refused by the token gate, or 200 with the owner-filtered leads |
| Server.Database.GetLead | backend/server.js:177-184 | 404 "Lead not found" exactly when no lead has the id; otherwise 200 with the first stored lead of that id |
| Server.Database.CreateLead | backend/server.js:186-218 | guard refusal, or 400 "Owner not found" for an unknown owner, changes nothing; otherwise exactly one lead is appended and returned as 201; other collections are untouched |
| Server.Database.UpdateLead | backend/server.js:220-243 | guard refusal, or 404 for an unknown id, changes nothing; otherwise only the first lead with the id becomes the shallow merge with the normalised body, and the other collections are untouched |
| Server.Database.DeleteLead | backend/server.js:245-261 | 404 for an unknown id and no change; otherwise 204 and the first lead with the id spliced out; opportunities referring to it stay |
| Server.Database.ListOpportunities | backend/server.js:264-277 | refused by the token gate, or 200 with the owner- and stage-filtered opportunities |
| Server.Database.GetOpportunity | backend/server.js:279-286 | 404 "Opportunity not found" exactly when no opportunity has the id; otherwise 200 with the first stored opportunity of that id |
| Server.Database.CreateOpportunity | backend/server.js:288-323 | guard refusal, or 400 for an unknown owner (checked first) or unknown lead, changes nothing; otherwise exactly one opportunity is appended and returned as 201 |
| Server.Database.UpdateOpportunity | backend/server.js:325-352 | guard refusal, or 404 for an unknown id, changes nothing; otherwise only the first opportunity with the id becomes the shallow merge with the body |
| Server.Database.DeleteOpportunity | backend/server.js:354-370 | 404 for an unknown id and no change; otherwise 204 and the first opportunity with the id spliced out |
| Server.Database.DashboardStats | backend/server.js:373-404 | refused by the token gate, or 200 with the report over the records, scoped to the owner when one is given |
| Server.LoginChecksStoredPassword | backend/server.js:82-92 | with unique emails, logging in as a stored user succeeds exactly when the password equals the stored one, and answers with that user's public fields |
| Server.LoginUnknownEmail | backend/server.js:82-86 | an email no user has gets 401 "Invalid credentials" whatever the password |
| Search.Lower | src/pages/Leads.tsx:71 | the same length, each character lower-cased |
| Search.LowerIdempotent | src/pages/Leads.tsx:71-72 | lower-casing twice equals lower-casing once |
| Search.Includes | src/pages/Leads.tsx:71 | true exactly when the needle occurs at some position of the text |
| Search.IncludesEmpty | src/pages/Leads.tsx:70-73 | the empty term occurs in every text |
| Client.OwnerScope | src/pages/Leads.tsx:47 | an owner filter is requested exactly for a signed-in rep, and it is the rep's own id |
| Client.ReplyAsWritten | src/services/api.ts:18-47 | success exactly for a 2xx status with a body, carrying that body; a 401 is the error "Unauthorized"; a 2xx answer without a body is an error |
| Client.NoContentIsReportedAsError | src/services/api.ts:42 | a 204 answer without a body, which both DELETE routes give on success, reaches the page as an error |
| Client.ReplyOf | src/services/api.ts:18-47 | success exactly for a 2xx status, carrying the body, which may be empty |
| Client.NoContentIsSuccess | src/services/api.ts:42 | the corrected wrapper reports a 204 as success and answers like the written one on every other response |
| LeadsPage.FilteredLeads | src/pages/Leads.tsx:70-73 | every shown lead is a lead whose lower-cased name or email contains the lower-cased term, and every such lead is shown |
| LeadsPage.FilteredLeadsKeepsOrder | src/pages/Leads.tsx:70-73 | the search distributes over concatenation and keeps a single lead exactly when it matches, so matches appear in page order, each once per occurrence |
| LeadsPage.EmptySearchKeepsAll | src/pages/Leads.tsx:70-73 | an empty search term shows every lead |
| LeadsPage.SearchIgnoresCase | src/pages/Leads.tsx:70-73 | a lower-cased search term shows the same leads as the term itself |
| LeadsPage.Cards | src/pages/Leads.tsx:357-386 | the Total card counts the shown leads, never more than all leads; each status card is at most the Total |
| LeadsPage.CardsAgreeWithDashboard | src/pages/Leads.tsx:357-386 | with an empty search the four cards equal the dashboard report's lead counts |
| LeadsPage.CardsCoverShownLeads | src/pages/Leads.tsx:357-386 | with known statuses, the New, Contacted and Qualified cards add up to the Total card |
| LeadsPage.LoadScopesReps | src/pages/Leads.tsx:44-51 | a rep's page holds exactly that rep's leads; any other user's page holds all leads |
| LeadsPage.ConversionOnlyQualifies | src/pages/Leads.tsx:193-195 | only the status of leads with the id changes, to Qualified, so they no longer offer conversion; all else is unchanged |
| LeadsPage.DeleteRemovesEveryMatch | src/pages/Leads.tsx:225 | no lead with the id remains, every lead with another id stays, and exactly the matching leads are gone |
| LeadsPage.DeleteKeepsOrder | src/pages/Leads.tsx:225 | the delete distributes over concatenation and drops a single lead exactly when it has the id, so the remaining leads keep their order |
| LeadsPage.DeleteAgreesWithServerWhenIdsUnique | src/pages/Leads.tsx:225 | with unique ids, the page's delete equals the server's splice of the first match |
| LeadsPage.ConversionAsWrittenIsRejected | src/services/api.ts:144-158 | the opportunity request built by conversion always fails validation on `ownerId` and gets 400, while the status change before it is valid |
| LeadsPage.ConversionForIsValid | src/pages/Leads.tsx:172-189 | with the signed-in user as owner, a conversion with a title, a known stage and a lead passes validation |
| LeadsPage.ConversionAsWritten | src/services/api.ts:144-158 | the requests as the client builds them: the lead's status change to Qualified, then an opportunity for that lead with an empty owner |
| LeadsPage.ConversionFor | src/pages/Leads.tsx:172-189 | the same requests with the opportunity owned by the given user |
| LeadsPage.Leads.constructor | src/pages/Leads.tsx:26-27 | an empty list and an empty search term |
| LeadsPage.Leads.Search | src/pages/Leads.tsx:344 | the search term is set and the list is unchanged |
| LeadsPage.Leads.LoadLeads | src/pages/Leads.tsx:44-68 | the owner filter requested is the rep scope; the list becomes the answer on success and is kept on failure |
| LeadsPage.Leads.AddLead | src/pages/Leads.tsx:75-116 | a request is sent exactly when name, email and a signed-in user are present, with the user as owner; on success exactly the returned lead is appended |
| LeadsPage.Leads.UpdateLead | src/pages/Leads.tsx:129-160 | without a selection nothing happens; otherwise the edited fields are sent, and on success the leads with the selected id become the answer |
| LeadsPage.Leads.ConvertLead | src/pages/Leads.tsx:172-218 | a request is sent exactly when a lead, a user, a title and a value are present, with the opportunity owned by the signed-in user (the corrected request, see Findings); on success the selected lead is marked Qualified |
| LeadsPage.Leads.DeleteLead | src/pages/Leads.tsx:220-244 | on success every lead with the id leaves the list; on failure it is kept |
| OpportunitiesPage.FilteredOpportunities | src/pages/Opportunities.tsx:85-87 | every shown opportunity is one whose lower-cased title contains the lower-cased term, and every such opportunity is shown |
| OpportunitiesPage.FilteredOpportunitiesKeepsOrder | src/pages/Opportunities.tsx:85-87 | the search distributes over concatenation and keeps a single deal exactly when its title matches, so matches appear in page order, each once per occurrence |
| OpportunitiesPage.EmptySearchKeepsAll | src/pages/Opportunities.tsx:85-87 | an empty search term shows every opportunity |
| OpportunitiesPage.SearchIgnoresCase | src/pages/Opportunities.tsx:85-87 | a lower-cased search term shows the same opportunities as the term itself |
| OpportunitiesPage.PipelineValue | src/pages/Opportunities.tsx:234-236 | with non-negative values, the pipeline value is non-negative |
| OpportunitiesPage.WonValue | src/pages/Opportunities.tsx:238-240 | with non-negative values, the won value is non-negative |
| OpportunitiesPage.ActiveDeals | src/pages/Opportunities.tsx:357 | at most the number of shown deals, itself at most the number of deals |
| OpportunitiesPage.ClosedDeals | src/pages/Opportunities.tsx:370 | at most the number of shown deals, itself at most the number of deals |
| OpportunitiesPage.ValuesByOutcome | src/pages/Opportunities.tsx:234-240 | the active, Won and Lost values add up to the total value |
| OpportunitiesPage.CountsByOutcome | src/pages/Opportunities.tsx:357-370 | the active, Won and Lost counts add up to the number of deals |
| OpportunitiesPage.CardsCoverShownDeals | src/pages/Opportunities.tsx:234-240 | the pipeline value, the won value and the lost value make up the value of the shown deals; the same holds for the counts |
| OpportunitiesPage.ActiveIsDiscoveryOrProposal | src/pages/Opportunities.tsx:357 | with known stages, the active deals are exactly the Discovery and Proposal ones |
| OpportunitiesPage.CardsAgreeWithDashboard | src/pages/Opportunities.tsx:234-240 | with an empty search, the won value and closed deals equal the dashboard's; the three values make up its total; with known stages, the active deals are its Discovery plus Proposal counts |
| OpportunitiesPage.Rate | src/pages/Opportunities.tsx:382-384 | no ratio exactly when nothing is shown; otherwise the closed deals out of the shown deals, never more than all |
| OpportunitiesPage.Quotient | src/pages/Opportunities.tsx:383 | the whole-number quotient: `q * d <= n < (q + 1) * d` |
| OpportunitiesPage.QuotientOf | src/pages/Opportunities.tsx:383 | dividing `k * d + r` with `r < d` gives `k` |
| OpportunitiesPage.QuotientBelow | src/pages/Opportunities.tsx:383 | a number below `(k + 1) * d` divides to at most `k` |
| OpportunitiesPage.Percent | src/pages/Opportunities.tsx:383 | the whole number nearest to `100 * won / total`, halves rounded up |
| OpportunitiesPage.PercentBounds | src/pages/Opportunities.tsx:382-384 | the rate lies between 0 and 100; it is 0 with no wins and 100 when every shown deal is won |
| OpportunitiesPage.Shown | src/pages/Opportunities.tsx:381-384 | 0% with no deals; for a ratio of at most all deals, at most 100%, 0% with no wins and 100% when all are won |
| OpportunitiesPage.WinRateShown | src/pages/Opportunities.tsx:382-384 | an empty page shows 0%, and every page at most 100% |
| OpportunitiesPage.LoadScopesReps | src/pages/Opportunities.tsx:59-66 | a rep's page holds exactly that rep's opportunities; any other user's page holds all of them |
| OpportunitiesPage.StageChangeOnlyMovesStage | src/pages/Opportunities.tsx:184-186 | only the stage of deals with the id changes; all else is unchanged |
| OpportunitiesPage.DeleteRemovesEveryMatch | src/pages/Opportunities.tsx:213 | no deal with the id remains, every deal with another id stays, exactly the matching deals are gone; with unique ids this equals the server's splice of the first match |
| OpportunitiesPage.DeleteKeepsOrder | src/pages/Opportunities.tsx:213 | the delete distributes over concatenation and drops a single deal exactly when it has the id, so the remaining deals keep their order |
| OpportunitiesPage.Opportunities.constructor | src/pages/Opportunities.tsx:34-35 | an empty list and an empty search term |
| OpportunitiesPage.Opportunities.Search | src/pages/Opportunities.tsx:341 | the search term is set and the list is unchanged |
| OpportunitiesPage.Opportunities.LoadOpportunities | src/pages/Opportunities.tsx:59-83 | the owner filter requested is the rep scope; the list becomes the answer on success and is kept on failure |
| OpportunitiesPage.Opportunities.AddOpportunity | src/pages/Opportunities.tsx:89-131 | a request is sent exactly when title, value, lead and a signed-in user are present, with the user as owner; on success exactly the returned record is appended |
| OpportunitiesPage.Opportunities.UpdateOpportunity | src/pages/Opportunities.tsx:143-177 | without a selection nothing happens; otherwise the edited fields are sent, and on success the deals with the selected id become the answer |
| OpportunitiesPage.Opportunities.ChangeStage | src/pages/Opportunities.tsx:179-206 | only the stage is sent; on success only the stage of the deals with the id changes |
| OpportunitiesPage.Opportunities.DeleteOpportunity | src/pages/Opportunities.tsx:208-232 | on success every deal with the id leaves the list; on failure it is kept |

## Left out

- Reading and rewriting `db.json`, and the ignored result of `writeDatabase`. The document is held in memory, and a document that cannot be read is the empty initial state.
- Concurrent requests. Each handler runs to completion before the next one starts, so the read-modify-write race on the file is not modelled.
- JWT signing, verification and the 24-hour expiry. These are the `Jwt` parameter; an expired token is one that `verify` rejects.
- express-validator internals. `isEmail` and `normalizeEmail` are the `EmailRules` parameter.
- Ids are taken as they are passed in; `uuidv4` is not modelled. Uniqueness of ids is not an invariant, because a PUT body may carry an `id`.
- The 500 "Server error" paths. Nothing in the model throws.
- The health route. It reports the clock and touches no record.
- JSON typing and string-to-number conversion. Opportunity values are integers, so `isNumeric` always holds and `parseInt` is the identity. Body fields outside the validated ones, other than `id` in a PUT, are not modelled.
- Server.Database.UpdateOpportunity: the re-parse of a truthy `value` is a no-op on integers. A value of 0 in a PUT body is kept as sent.
- LeadsPage.Leads.ConvertLead: an empty value field is `None`. A non-numeric value that `parseInt` would turn into `NaN` is not modelled.
- OpportunitiesPage.Opportunities.AddOpportunity: an empty value field is `None`. A non-numeric value that `parseInt` would turn into `NaN` is not modelled.
- OpportunitiesPage.Opportunities.UpdateOpportunity: the edit form's value is an integer, so an emptied field, sent as `NaN`, is not modelled.
- OpportunitiesPage.Percent: exact rational rounding, half up. The floating-point error of `won / total * 100` before `Math.round` is not modelled.
- Search.Lower: lower-cases ASCII letters only. Unicode case mapping is not modelled.
- Rendering, dialogs, toasts, loading flags, currency formatting, and the reset of forms after success.
- The `fetch` wrapper.
  - A page handler receives the decoded answer as a parameter. `Data` means success, and `Failed` means an error or a thrown exception.
  - The 401 redirect and `localStorage` are not modelled.
  - The wrapper itself is `Client.ReplyAsWritten`, and its 204 problem is under Findings. The page handlers take the reply as a parameter and are not composed with it.
- Client.ReplyAsWritten: the error text for a failing status omits the status number, and the parse error's text is one browser's wording.
- LeadsPage.Leads.ConvertLead: models the corrected request, with the signed-in user as the opportunity's owner. The request as written is `LeadsPage.ConversionAsWritten`, and `LeadsPage.ConversionAsWrittenIsRejected` shows that the server answers it with 400.
- Dashboard.tsx, Settings.tsx, Index.tsx, Debug.tsx, CRMLayout.tsx, demoData.ts and config/api.ts are not part of this model. They only display data or hold constants.

## Findings

| source | as written | input that shows it | evidently intended | confidence | as-written member | corrected member |
|---|---|---|---|---|---|---|
| src/services/api.ts:144-158 | converting a lead first sets the lead's status to Qualified, then posts the opportunity with `ownerId: ''`; `POST /opportunities` requires a non-empty `ownerId`, so it answers 400 every time, and the page never marks the lead Qualified although the server already has | any conversion, e.g. lead "L1", title "Deal", value 100, stage "Discovery" | the opportunity is owned by the signed-in user (`ownerId: user.id`), so the conversion creates it | high (not executed) | LeadsPage.ConversionAsWrittenIsRejected | LeadsPage.ConversionForIsValid |
| src/services/api.ts:18-47 | `request` calls `response.json()` on every successful answer, including the 204 with an empty body that both DELETE routes give, so the parse throws and the page reports a failed delete and keeps the deleted record | `DELETE /leads/L1` for a stored lead "L1": the server answers 204 and removes it | a successful status without a body is a success with no data | high (not executed) | Client.NoContentIsReportedAsError | Client.NoContentIsSuccess |
